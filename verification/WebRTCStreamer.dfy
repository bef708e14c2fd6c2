/**
 The streamer class: the statements each of its threads executes between two
 points at which another thread can see a difference, over the class's fields.
 A thread may execute a method when its guard in StreamerModel holds, and each
 method is one step of that model, so what is proved of the model's runs holds
 of every interleaving of these methods.
 */
module WebRTCStreamerClass {
  import opened Wrappers
  import opened BoundedFifo
  import opened StreamerModel

  class WebRTCStreamer {
    const writerFirst: bool
    var doTerm: bool
    var signalingQueue: Fifo<Msg>
    var framesQueueIn: Fifo<Frame>
    var clientsMap: map<Id, Inst>
    var clients: map<Inst, Client>      // the Client objects that shared pointers refer to

    // Where the threads are.
    var loop: LoopPc
    var out: OutPc
    var media: MediaPc
    var dtor: DtorPc
    var ws: Option<Msg>

    // What was handled, sent and broadcast so far.
    var handled: seq<Msg>
    var sent: seq<Msg>
    var framesIn: seq<Frame>
    var framesDone: nat

    ghost function State(): State
      reads this
    {
      StreamerModel.State(writerFirst, doTerm, signalingQueue, framesQueueIn, clientsMap, clients,
                          loop, out, media, dtor, ws, handled, sent, framesIn, framesDone)
    }

    constructor (writerFirst: bool)
      ensures Init(State()) && this.writerFirst == writerFirst
      ensures signalingQueue.cap == 256 && framesQueueIn.cap == 256
    {
      this.writerFirst := writerFirst;
      doTerm := false;
      signalingQueue := Fifo([], SIGNALING_CAPACITY, false);
      framesQueueIn := Fifo([], FRAMES_CAPACITY, false);
      clientsMap, clients := map[], map[];
      loop, out, media, dtor, ws := LCheck, OCheck, MCheck, XIdle, None;
      handled, sent, framesIn, framesDone := [], [], [], 0;
    }

    // ------------------------------------------------------ the websocket

    /** The onMessage callback marks the message and enters the push. */
    method OnMessage(m: Msg)
      requires Enabled(State(), WsReceive(m))
      modifies this`ws
      ensures State() == Apply(old(State()), WsReceive(m))
    {
      ws := Some(m.(mode := Input));
    }

    /** Its push returns. */
    method OnMessageReturn()
      requires Enabled(State(), WsPush)
      modifies this`ws, this`signalingQueue
      ensures State() == Apply(old(State()), WsPush)
    {
      signalingQueue := AfterPush(signalingQueue, ws.value);
      ws := None;
    }

    // ------------------------------------------------- the signalling loop

    /** The loop's condition, and the pop. */
    method PollSignaling(underLock: bool)
      requires loop.LCheck? || loop.LPop?
      requires Enabled(State(), Loop(underLock))
      modifies this`loop, this`signalingQueue, this`handled
      ensures State() == Apply(old(State()), Loop(underLock))
    {
      if loop.LCheck? {
        loop := if doTerm then LJoin else LPop;
        return;
      }
      if signalingQueue.items == [] {
        loop := LCheck;
        return;
      }
      var m := signalingQueue.items[0];
      signalingQueue := AfterPop(signalingQueue);
      var c := |handled|;
      handled := handled + [m];
      if m.mode.Input? {
        loop := if m.kind.Request? then LBuild(m, c) else if m.kind.Answer? then LGet(m) else LCheck;
      } else {
        loop := if m.kind.Disconnect? then LErase(m) else LSend(m);
      }
    }

    /** A request: build a Client and put it into the registry, or destroy it at once if the id is taken. */
    method InputRequest(underLock: bool)
      requires loop.LBuild? || loop.LEmplace?
      requires Enabled(State(), Loop(underLock))
      modifies this`loop, this`clients, this`clientsMap
      ensures State() == Apply(old(State()), Loop(underLock))
      ensures old(loop.LBuild?) ==>
                var c := old(loop.c);
                c in clients && clients[c].id == old(loop.m.id) && clients[c].inq.cap == clients[c].outq.cap == 32
    {
      var m, c := loop.m, loop.c;
      if loop.LBuild? {
        clients := clients[c := NewClient(m.id)];
        loop := LEmplace(m, c);
        return;
      }
      if m.id in clientsMap {
        loop := LDestroy(c, 0, underLock);
        return;
      }
      clientsMap := clientsMap[m.id := c];
      clients := clients[c := clients[c].(start := framesDone)];
      loop := LCheck;
    }

    /** An answer: look the Client up and push into its queue, unless there is none. */
    method InputAnswer(underLock: bool)
      requires loop.LGet? || loop.LSet?
      requires Enabled(State(), Loop(underLock))
      modifies this`loop, this`clients
      ensures State() == Apply(old(State()), Loop(underLock))
    {
      var m := loop.m;
      if loop.LGet? {
        loop := if m.id in clientsMap then LSet(m, clientsMap[m.id]) else LCheck;
        return;
      }
      var k := clients[loop.c];
      clients := clients[loop.c := k.(inq := AfterPush(k.inq, m))];
      loop := LCheck;
    }

    /** An output message: a disconnect erases the Client, anything else is sent. */
    method OutputMessage(underLock: bool)
      requires loop.LErase? || loop.LSend?
      requires Enabled(State(), Loop(underLock))
      modifies this`loop, this`clientsMap, this`sent
      ensures State() == Apply(old(State()), Loop(underLock))
    {
      var m := loop.m;
      if loop.LSend? {
        sent := sent + [m];
        loop := LCheck;
        return;
      }
      if m.id in clientsMap {
        loop := LDestroy(clientsMap[m.id], 0, true);
        clientsMap := clientsMap - {m.id};
      } else {
        loop := LCheck;
      }
    }

    /** One statement of ~Client. */
    method DestroyClient(c: Inst, stage: nat)
      requires c in clients && CanDestroyStep(clients[c], stage)
      modifies this`clients
      ensures clients == old(clients)[c := DestroyStep(old(clients)[c], stage)]
    {
      var k := clients[c];
      if stage == 0 {
        k := k.(term := true);
      } else if stage == 1 {
        k := k.(inq := k.inq.(stopped := true));
      } else if stage == 2 {
        k := k.(outq := k.outq.(stopped := true));
      } else if stage >= JOIN_STAGE {
        k := k.(gone := true);
      }
      clients := clients[c := k];
    }

    /** The loop inside ~Client, or at its own end. */
    method FinishSignaling(underLock: bool)
      requires loop.LDestroy? || loop.LJoin?
      requires Enabled(State(), Loop(underLock))
      modifies this`loop, this`clients
      ensures State() == Apply(old(State()), Loop(underLock))
    {
      if loop.LJoin? {
        loop := LDone;
        return;
      }
      DestroyClient(loop.c, loop.stage);
      loop := if loop.stage < JOIN_STAGE then loop.(stage := loop.stage + 1) else LCheck;
    }

    // ------------------------------------------------- the output thread

    method CollectOutput(c: Inst, timeout: bool)
      requires Enabled(State(), Out(c, timeout))
      modifies this`out, this`clients, this`signalingQueue
      ensures State() == Apply(old(State()), Out(c, timeout))
    {
      if out.OCheck? {
        out := if doTerm then ODone else OAcquire;
      } else if out.OAcquire? {
        out := OVisit(clientsMap.Values);
      } else if out.OVisit? {
        out := if out.todo == {} then OCheck else OTake(out.todo - {c}, c);
      } else if out.OTake? {
        var q := clients[out.c].outq;
        if q.items == [] {
          out := OVisit(out.todo);
        } else {
          clients := clients[out.c := clients[out.c].(outq := AfterPop(q))];
          out := OPush(out.todo, q.items[0]);
        }
      } else {
        signalingQueue := AfterPush(signalingQueue, out.m);
        out := OVisit(out.todo);
      }
    }

    // --------------------------------------------------- the media thread

    method Multimedia(c: Inst)
      requires Enabled(State(), Media(c))
      modifies this`media, this`clients, this`framesQueueIn, this`framesDone
      ensures State() == Apply(old(State()), Media(c))
    {
      if media.MCheck? {
        media := if doTerm then MDone else MPop;
      } else if media.MPop? {
        if framesQueueIn.items == [] {
          media := MCheck;
        } else {
          media := MAcquire(framesQueueIn.items[0]);
          framesQueueIn := AfterPop(framesQueueIn);
        }
      } else if media.MAcquire? {
        media := MVisit(media.f, clientsMap.Values);
      } else if media.todo == {} {
        media := MCheck;
        framesDone := framesDone + 1;
      } else {
        clients := clients[c := clients[c].(offered := clients[c].offered + [media.f])];
        media := MVisit(media.f, media.todo - {c});
      }
    }

    /** A null or empty buffer changes nothing; a frame is queued unless the queue is stopped. */
    method PushData(data: Option<Frame>)
      requires data.Some? ==> Enabled(State(), StreamerModel.PushData(data.value))
      modifies this`framesQueueIn, this`framesIn
      ensures State() == if data.None? then old(State()) else Apply(old(State()), StreamerModel.PushData(data.value))
    {
      if data.None? {
        return;
      }
      if !framesQueueIn.stopped {
        framesIn := framesIn + [data.value];
      }
      framesQueueIn := AfterPush(framesQueueIn, data.value);
    }

    // ---------------------------------------------------------- a Client

    /** A peer connection's callback pushes a disconnect or the local description. */
    method OnPeerConnection(c: Inst, kind: Kind, body: nat)
      requires Enabled(State(), Callback(c, kind, body))
      modifies this`clients
      ensures State() == Apply(old(State()), Callback(c, kind, body))
    {
      var k := clients[c];
      var m := Msg(k.id, Output, kind, body, Made(c));
      if !k.outq.stopped {
        k := k.(accepted := k.accepted + [m]);
      }
      clients := clients[c := k.(outq := AfterPush(k.outq, m))];
    }

    /** The Client's own thread applies the answers. */
    method ClientSignaling(c: Inst)
      requires Enabled(State(), ClientThread(c))
      modifies this`clients
      ensures State() == Apply(old(State()), ClientThread(c))
    {
      var k := clients[c];
      if k.pc.CCheck? {
        k := k.(pc := if k.term then CDone else CPop);
      } else if k.pc.CApply? {
        k := k.(applied := k.applied + [k.pc.m], pc := CCheck);
      } else if k.inq.items == [] {
        k := k.(pc := CCheck);
      } else {
        k := k.(pc := CApply(k.inq.items[0]), inq := AfterPop(k.inq));
      }
      clients := clients[c := k];
    }

    // ----------------------------------------------------- the destructor

    /** ~WebRTCStreamer, and then the destruction of the registry's clients, in any order. */
    method Destroy(id: Id)
      requires Enabled(State(), Dtor(id))
      modifies this`dtor, this`doTerm, this`signalingQueue, this`framesQueueIn, this`clientsMap, this`clients
      ensures State() == Apply(old(State()), Dtor(id))
    {
      if dtor.XIdle? {
        doTerm := true;
        dtor := XStopSignaling;
      } else if dtor.XStopSignaling? {
        signalingQueue := signalingQueue.(stopped := true);
        dtor := XCloseWs;
      } else if dtor.XCloseWs? {
        dtor := XJoinLoop;
      } else if dtor.XJoinLoop? {
        dtor := XStopFrames;
      } else if dtor.XStopFrames? {
        framesQueueIn := framesQueueIn.(stopped := true);
        dtor := XJoinMedia;
      } else if dtor.XJoinMedia? {
        dtor := XRelease;
      } else if dtor.XDestroy? {
        DestroyClient(dtor.c, dtor.stage);
        dtor := if dtor.stage < JOIN_STAGE then XDestroy(dtor.c, dtor.stage + 1) else XRelease;
      } else if id in clientsMap {
        dtor := XDestroy(clientsMap[id], 0);
        clientsMap := clientsMap - {id};
      } else {
        dtor := XDone;
      }
    }
  }
}
