/** What enters the streamer, told by the calls alone: every frame, callback and websocket message before its stop. */
module StreamerIntake {
  import opened Wrappers
  import opened StreamerModel
  import opened StreamerInvariant
  import opened StreamerMessages
  import opened StreamerBroadcast

  // -------------------------------------------------------------------- frames

  /** The frames given to pushData in the first n steps, up to the stop of the frames queue. */
  function PushedFrames(ss: seq<State>, acts: seq<Action>, n: nat): seq<Frame>
    requires n <= |acts| && |ss| == |acts| + 1
  {
    if n == 0 then []
    else
      PushedFrames(ss, acts, n - 1)
      + if acts[n-1].PushData? && !ss[n-1].framesq.stopped then [acts[n-1].f] else []
  }

  lemma MediaAcceptsNothing(s: State, c: Inst)
    requires MediaEnabled(s, c)
    ensures MediaStep(s, c).framesIn == s.framesIn
  {
  }

  lemma StepAcceptsFrame(s: State, a: Action)
    requires Enabled(s, a)
    ensures Apply(s, a).framesIn == s.framesIn + if a.PushData? && !s.framesq.stopped then [a.f] else []
  {
    if a.Loop? {
      LoopSameMedia(s, a.underLock);
    } else if a.Out? {
      OutUnconcerned(s, a.c, a.timeout);
    } else if a.Media? {
      MediaAcceptsNothing(s, a.c);
    } else if a.Dtor? {
      DtorUnconcerned(s, a.id);
    } else if !a.PushData? {
      BystanderUnconcerned(s, a);
    }
  }

  lemma {:induction false} AcceptedFrames(ss: seq<State>, acts: seq<Action>, n: nat)
    requires IsRun(ss, acts) && Init(ss[0]) && n <= |acts|
    ensures ss[n].framesIn == PushedFrames(ss, acts, n)
  {
    if n > 0 {
      AcceptedFrames(ss, acts, n - 1);
      assert StepAt(ss, acts, n - 1);
      StepAcceptsFrame(ss[n-1], acts[n-1]);
    }
  }

  /**
   No frame is lost: over any run, what a client is offered is a contiguous stretch
   of the frames given to pushData before the stop; the media thread has taken a
   prefix of those frames, and the rest waits in the queue.
   */
  lemma PushedFramesAreBroadcast(ss: seq<State>, acts: seq<Action>, n: nat, c: Inst)
    requires IsRun(ss, acts) && Init(ss[0]) && n <= |acts|
    ensures var frames := PushedFrames(ss, acts, n);
            && Taken(ss[n]) <= |frames| && ss[n].framesq.items == frames[Taken(ss[n])..]
            && (c in ss[n].clients ==>
                  var k := ss[n].clients[c];
                  && k.start + |k.offered| <= |frames| && k.offered == frames[k.start..k.start + |k.offered|]
                  && (Registered(ss[n], c) ==> k.start + |k.offered| == ReachedFor(ss[n], c)))
  {
    AcceptedFrames(ss, acts, n);
    RunKeepsBroadcast(ss, acts, n);
    assert c in ss[n].clients ==> Offered(ss[n], c);
  }

  // ----------------------------------------------------------------- callbacks

  /** What the callbacks of instance c made in the first n steps, under its peer's id, up to the stop of its queue. */
  function CallbackMsgs(ss: seq<State>, acts: seq<Action>, n: nat, c: Inst, id: Id): seq<Msg>
    requires n <= |acts| && |ss| == |acts| + 1
  {
    if n == 0 then []
    else
      var s, a := ss[n-1], acts[n-1];
      CallbackMsgs(ss, acts, n - 1, c, id)
      + if a.Callback? && a.c == c && c in s.clients && !s.clients[c].outq.stopped
        then [Msg(id, Output, a.kind, a.body, Made(c))] else []
  }

  lemma OutAcceptsNothing(s: State, o: Inst, timeout: bool, c: Inst)
    requires OutEnabled(s, o, timeout) && c in s.clients
    ensures c in OutStep(s, o, timeout).clients && OutStep(s, o, timeout).clients[c].accepted == s.clients[c].accepted
  {
  }

  lemma CallbackAccepts(s: State, a: Action, c: Inst)
    requires a.Callback? && Enabled(s, a) && c in s.clients
    ensures c in Apply(s, a).clients
    ensures var k := s.clients[c];
            Apply(s, a).clients[c].accepted ==
            k.accepted + if a.c == c && !k.outq.stopped then [Msg(k.id, Output, a.kind, a.body, Made(c))] else []
  {
  }

  lemma StepAcceptsMessage(s: State, a: Action, c: Inst)
    requires LoopInv(s) && Enabled(s, a) && c in s.clients
    ensures c in Apply(s, a).clients
    ensures var k := s.clients[c];
            Apply(s, a).clients[c].accepted ==
            k.accepted + if a.Callback? && a.c == c && !k.outq.stopped
                         then [Msg(k.id, Output, a.kind, a.body, Made(c))] else []
  {
    if a.Callback? {
      CallbackAccepts(s, a, c);
    } else if a.Loop? {
      LoopKeepsOutput(s, a.underLock, c);
    } else if a.Out? {
      OutAcceptsNothing(s, a.c, a.timeout, c);
    } else {
      QuietKeepsOutput(s, a, c);
    }
  }

  lemma {:induction false} NoCallbacks(ss: seq<State>, acts: seq<Action>, n: nat, c: Inst, id: Id)
    requires n <= |acts| && |ss| == |acts| + 1
    requires forall k :: 0 <= k < n ==> c !in ss[k].clients
    ensures CallbackMsgs(ss, acts, n, c, id) == []
  {
    if n > 0 {
      NoCallbacks(ss, acts, n - 1, c, id);
    }
  }

  lemma NoCallbacksBefore(ss: seq<State>, acts: seq<Action>, n: nat, c: Inst, id: Id)
    requires IsRun(ss, acts) && Inv(ss[0]) && n <= |acts| && c !in ss[n].clients
    ensures CallbackMsgs(ss, acts, n, c, id) == []
  {
    forall k | 0 <= k < n
      ensures c !in ss[k].clients
    {
      ClientsGrow(ss, acts, k, n);
    }
    NoCallbacks(ss, acts, n, c, id);
  }

  lemma {:induction false} AcceptedSoFar(ss: seq<State>, acts: seq<Action>, n: nat, c: Inst)
    requires IsRun(ss, acts) && Init(ss[0]) && n <= |acts| && c in ss[n].clients
    ensures ss[n].clients[c].accepted == CallbackMsgs(ss, acts, n, c, ss[n].clients[c].id)
  {
    InitInv(ss[0]);
    assert StepAt(ss, acts, n - 1);
    var s, a := ss[n-1], acts[n-1];
    RunKeepsInv(ss, acts, n - 1);
    StepNames(s, a);
    if c in s.clients {
      AcceptedSoFar(ss, acts, n - 1, c);
      StepAcceptsMessage(s, a, c);
    } else {
      NoCallbacksBefore(ss, acts, n - 1, c, ss[n].clients[c].id);
      LoopNames(s, a.underLock);
    }
  }

  /**
   No callback is lost: before the signalling queue is stopped, what the callbacks
   of an instance made, each with the kind and body it was given and the id of the
   peer that asked for the instance, is what the loop has handled of it, then what
   waits in the signalling queue, then what is in the output thread's hand, then
   what waits in the instance's own queue.
   */
  lemma CallbacksAreConserved(ss: seq<State>, acts: seq<Action>, n: nat, c: Inst)
    requires IsRun(ss, acts) && Init(ss[0]) && n <= |acts| && c in ss[n].clients
    ensures c < |ss[n].handled|
    ensures ss[n].clients[c].accepted == CallbackMsgs(ss, acts, n, c, ss[n].handled[c].id)
    ensures !ss[n].sigq.stopped ==>
              CallbackMsgs(ss, acts, n, c, ss[n].handled[c].id) ==
              From(ss[n].handled, c) + From(ss[n].sigq.items, c) + InHand(ss[n], c) + ss[n].clients[c].outq.items
  {
    InitInv(ss[0]);
    RunKeepsInv(ss, acts, n);
    assert ClientOk(ss[n], c);
    AcceptedSoFar(ss, acts, n, c);
    RunReachable(ss, acts, n);
    if !ss[n].sigq.stopped {
      TwoHopConservation(ss[n], c);
    }
  }

  // ----------------------------------------------------------------- websocket

  /** The messages the websocket callback was given, marked as inputs. */
  function Arrived(acts: seq<Action>): seq<Msg> {
    if acts == [] then []
    else
      var a := acts[|acts|-1];
      Arrived(acts[..|acts|-1]) + if a.WsReceive? then [a.m.(mode := Input)] else []
  }

  /** How often the websocket callback's push has returned. */
  function Returns(acts: seq<Action>): nat {
    if acts == [] then 0 else Returns(acts[..|acts|-1]) + if acts[|acts|-1].WsPush? then 1 else 0
  }

  /** The inputs among ms, in order. */
  function Inputs(ms: seq<Msg>): seq<Msg> {
    if ms == [] then []
    else Inputs(ms[..|ms|-1]) + if ms[|ms|-1].mode.Input? then [ms[|ms|-1]] else []
  }

  lemma InputsAppend(ms: seq<Msg>, m: Msg)
    ensures Inputs(ms + [m]) == Inputs(ms) + if m.mode.Input? then [m] else []
  {
    assert (ms + [m])[..|ms|] == ms;
  }

  /** Every input has either reached the signalling queue or is still being pushed. */
  ghost predicate AllArrived(s: State, arrived: seq<Msg>, pushes: nat) {
    !s.sigq.stopped ==>
      && Inputs(s.handled + s.sigq.items) + (if s.ws.Some? then [s.ws.value] else []) == arrived
      && |Inputs(s.handled + s.sigq.items)| == pushes
  }

  lemma WebsocketEffect(s: State, a: Action)
    requires Enabled(s, a) && (a.WsReceive? || a.WsPush?)
    ensures a.WsReceive? ==> s.ws == None && Still(s, Apply(s, a)) && Apply(s, a).ws == Some(a.m.(mode := Input))
    ensures a.WsPush? ==>
              s.ws.Some? && Apply(s, a).ws == None && (!s.sigq.stopped ==> Pushed(s, Apply(s, a), s.ws.value))
  {
  }

  lemma PushedInputs(s: State, s': State, m: Msg)
    requires Pushed(s, s', m)
    ensures Inputs(s'.handled + s'.sigq.items) ==
            Inputs(s.handled + s.sigq.items) + if m.mode.Input? then [m] else []
  {
    assert s'.handled + s'.sigq.items == (s.handled + s.sigq.items) + [m];
    InputsAppend(s.handled + s.sigq.items, m);
  }

  lemma OthersBringNoInput(s: State, a: Action)
    requires TagsInv(s) && Enabled(s, a) && !a.WsReceive? && !a.WsPush?
    ensures Apply(s, a).ws == s.ws
    ensures Inputs(Apply(s, a).handled + Apply(s, a).sigq.items) == Inputs(s.handled + s.sigq.items)
  {
    var s' := Apply(s, a);
    StepQueueEffect(s, a);
    if a.Loop? && LoopPopped(s, s') {
      MoveOne(s.handled, s.sigq.items);
    } else if a.Out? && s.out.OPush? && Pushed(s, s', s.out.m) {
      PushedInputs(s, s', s.out.m);
    }
  }

  lemma StepBringsInput(s: State, a: Action, arrived: seq<Msg>, pushes: nat)
    requires TagsInv(s) && Enabled(s, a) && AllArrived(s, arrived, pushes)
    ensures AllArrived(Apply(s, a), arrived + if a.WsReceive? then [a.m.(mode := Input)] else [],
                       pushes + if a.WsPush? then 1 else 0)
  {
    StepQueueEffect(s, a);
    if a.WsReceive? || a.WsPush? {
      WebsocketEffect(s, a);
      if a.WsPush? && !s.sigq.stopped {
        PushedInputs(s, Apply(s, a), s.ws.value);
      }
    } else {
      OthersBringNoInput(s, a);
    }
  }

  lemma {:induction false} RunBringsInput(ss: seq<State>, acts: seq<Action>, n: nat)
    requires IsRun(ss, acts) && Init(ss[0]) && n <= |acts|
    ensures AllArrived(ss[n], Arrived(acts[..n]), Returns(acts[..n]))
  {
    if n > 0 {
      RunBringsInput(ss, acts, n - 1);
      InitInv(ss[0]);
      RunKeepsMessages(ss, acts, n - 1);
      assert StepAt(ss, acts, n - 1);
      StepBringsInput(ss[n-1], acts[n-1], Arrived(acts[..n-1]), Returns(acts[..n-1]));
      assert acts[..n][..n-1] == acts[..n-1];
    }
  }

  /**
   No websocket message is lost: before the signalling queue is stopped, the inputs
   the loop has handled and those waiting in the queue are, in order, the messages
   the callback was given, but for one whose push has not returned.
   */
  lemma MessagesAreTakenIn(ss: seq<State>, acts: seq<Action>)
    requires IsRun(ss, acts) && Init(ss[0]) && !ss[|acts|].sigq.stopped
    ensures var s := ss[|acts|];
            && Inputs(s.handled + s.sigq.items) + (if s.ws.Some? then [s.ws.value] else []) == Arrived(acts)
            && |Inputs(s.handled + s.sigq.items)| == Returns(acts)
  {
    RunBringsInput(ss, acts, |acts|);
    assert acts[..|acts|] == acts;
  }
}
