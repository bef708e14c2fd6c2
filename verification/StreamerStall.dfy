/** When, before shutdown, the pipeline can stop moving: exactly one kind of state, and it is reachable. */
module StreamerStall {
  import opened Wrappers
  import opened BoundedFifo
  import opened StreamerModel
  import opened StreamerInvariant

  /**
   The output thread, inside traverse and so holding the shared lock, is blocked
   pushing to the full signalling queue; the loop, the only consumer of that
   queue, waits for the exclusive lock.
   */
  predicate Stalled(s: State) {
    && !s.sigq.stopped && |s.sigq.items| == s.sigq.cap
    && s.out.OPush?
    && (s.loop.LEmplace? || s.loop.LErase?)
  }

  /** A step of the loop or of the output thread. */
  predicate PipelineStep(a: Action) { a.Loop? || a.Out? }

  /** A step of a thread the loop may be waiting for: the media thread inside its broadcast, or a client's thread. */
  predicate HelperStep(s: State, a: Action) {
    || (a.Media? && MediaReads(s))
    || (a.ClientThread? && ((s.loop.LSet? && a.c == s.loop.c) || (s.loop.LDestroy? && a.c == s.loop.c)))
  }

  ghost predicate CanMove(s: State) {
    exists a: Action :: (PipelineStep(a) || HelperStep(s, a)) && Enabled(s, a)
  }

  /** The media thread, inside its broadcast, can go on. */
  lemma MediaCanMove(s: State)
    requires Inv(s) && MediaReads(s)
    ensures exists a: Action :: a.Media? && Enabled(s, a)
  {
    var todo := s.media.todo;
    if todo == {} {
      assert Enabled(s, Media(0));
    } else {
      var c :| c in todo;
      InRegistry(s, c);
      assert Enabled(s, Media(c));
    }
  }

  /** The output thread is blocked only in its push, or outside the registry's lock. */
  lemma OutCanMove(s: State)
    requires Inv(s) && OutReads(s) && (s.out.OPush? ==> CanPush(s.sigq))
    ensures exists a: Action :: a.Out? && Enabled(s, a)
  {
    match s.out
    case OVisit(todo) =>
      var c :| todo != {} ==> c in todo;
      assert Enabled(s, Out(c, false));
    case OTake(_, k) =>
      InRegistry(s, k);
      assert Enabled(s, Out(0, true));
    case OPush(_, _) => assert Enabled(s, Out(0, false));
    case _ =>
  }

  /** Whatever the loop waits for, other than a message or the output thread's release of the lock, can move. */
  lemma LoopOrHelperCanMove(s: State)
    requires Inv(s) && !s.loop.LPop? && !s.loop.LJoin? && !s.loop.LDone?
    requires s.loop.LEmplace? || s.loop.LErase? ==> !OutReads(s)
    ensures CanMove(s)
  {
    if LoopEnabled(s) {
      assert Enabled(s, Loop(false));
    } else {
      match s.loop
      case LEmplace(_, _) => MediaCanMove(s);
      case LErase(_) => MediaCanMove(s);
      case LSet(m, c) =>
        assert EntryOk(s, m.id);
        assert ClientOk(s, c);
        assert Enabled(s, ClientThread(c));
      case LDestroy(c, stage, _) =>
        assert Enabled(s, ClientThread(c));
      case _ =>
    }
  }

  /** Anything but a stalled state can move, before the destructor begins. */
  lemma OnlyStalledIsStuck(s: State)
    requires Inv(s) && !s.term && !Stalled(s)
    ensures CanMove(s)
  {
    if s.loop.LPop? {
      // nothing to pop means room to push, so the output thread is not blocked in its push
      if s.sigq.items != [] {
        assert Enabled(s, Loop(false));
      } else if OutReads(s) {
        OutCanMove(s);
      } else {
        assert Enabled(s, Out(0, false));
      }
    } else if (s.loop.LEmplace? || s.loop.LErase?) && OutReads(s) {
      OutCanMove(s);
    } else {
      LoopOrHelperCanMove(s);
    }
  }

  /** A stalled state cannot move, and no other thread's step, short of the destructor's stop, ends the stall. */
  lemma StallIsPermanent(s: State, a: Action)
    requires Inv(s) && Stalled(s) && Enabled(s, a)
    requires !(a.Dtor? && s.dtor.XStopSignaling?)
    ensures !PipelineStep(a) && Stalled(Apply(s, a))
    ensures Apply(s, a).handled == s.handled && Apply(s, a).sent == s.sent && Apply(s, a).registry == s.registry
  {
  }

  // ---------------------------------------------- from "can move" to "moves"

  /** How many steps the threads the loop may be waiting for still need. */
  function HelperRank(s: State): nat {
    (if MediaReads(s) then |s.media.todo| + 1 else 0)
    + (if (s.loop.LSet? || s.loop.LDestroy?) && s.loop.c in s.clients then ClientRank(s.clients[s.loop.c]) else 0)
  }

  function ClientRank(k: Client): nat {
    match k.pc
    case CDone => 0
    case CCheck => if k.term then 1 else 3 * |k.inq.items| + 1
    case CApply(_) => if k.term then 2 else 3 * |k.inq.items| + 2
    case CPop => if k.term then 3 else 3 * |k.inq.items|
  }

  lemma HelperLowersRank(s: State, a: Action)
    requires Inv(s) && !s.term && Enabled(s, a) && HelperStep(s, a)
    ensures HelperRank(Apply(s, a)) < HelperRank(s)
    ensures !Apply(s, a).term && Apply(s, a).loop == s.loop && Apply(s, a).out == s.out
    ensures Apply(s, a).sigq == s.sigq
  {
    if a.ClientThread? {
      assert ClientOk(s, a.c);
    } else if s.media.todo != {} {
      var c := a.c;
      assert s.media.todo == (s.media.todo - {c}) + {c};
      if s.loop.LSet? || s.loop.LDestroy? {
        var k, k' := s.clients, Apply(s, a).clients;
        assert s.loop.c in k ==> ClientRank(k'[s.loop.c]) == ClientRank(k[s.loop.c]);
      }
    }
  }

  /** No step of this run is the destructor stopping the signalling queue. */
  ghost predicate NoStop(ss: seq<State>, acts: seq<Action>)
    requires IsRun(ss, acts)
  {
    forall i :: 0 <= i < |acts| ==> !(acts[i].Dtor? && ss[i].dtor.XStopSignaling?)
  }

  /** A run from s, without a stop, that ends in a step of the loop or of the output thread. */
  ghost predicate MovesAlong(s: State, ss: seq<State>, acts: seq<Action>) {
    && IsRun(ss, acts) && ss[0] == s && NoStop(ss, acts)
    && acts != [] && PipelineStep(acts[|acts|-1])
  }

  lemma {:induction false} MovesEventually(s: State) returns (ss: seq<State>, acts: seq<Action>)
    requires Inv(s) && !s.term && !Stalled(s)
    ensures MovesAlong(s, ss, acts)
    decreases HelperRank(s)
  {
    OnlyStalledIsStuck(s);
    var a: Action :| (PipelineStep(a) || HelperStep(s, a)) && Enabled(s, a);
    var s' := Apply(s, a);
    if PipelineStep(a) {
      ss, acts := [s, s'], [a];
    } else {
      HelperLowersRank(s, a);
      StepKeepsInv(s, a);
      var ss', acts' := MovesEventually(s');
      ss, acts := [s] + ss', [a] + acts';
      forall i | 0 <= i < |acts|
        ensures StepAt(ss, acts, i)
        ensures !(acts[i].Dtor? && ss[i].dtor.XStopSignaling?)
      {
        if i > 0 {
          assert StepAt(ss', acts', i - 1);
        }
      }
    }
  }

  lemma {:induction false} StallPersists(ss: seq<State>, acts: seq<Action>, n: nat)
    requires IsRun(ss, acts) && Inv(ss[0]) && Stalled(ss[0]) && NoStop(ss, acts) && n <= |acts|
    ensures Stalled(ss[n]) && Inv(ss[n])
    ensures forall i :: 0 <= i < n ==> !PipelineStep(acts[i])
    ensures ss[n].handled == ss[0].handled && ss[n].sent == ss[0].sent && ss[n].registry == ss[0].registry
  {
    if n > 0 {
      StallPersists(ss, acts, n - 1);
      assert StepAt(ss, acts, n - 1);
      StallIsPermanent(ss[n-1], acts[n-1]);
      StepKeepsInv(ss[n-1], acts[n-1]);
    }
  }

  /** Whatever the program and its environment do, neither the loop nor the output thread moves before a stop. */
  ghost predicate StuckForever(s: State) {
    forall ss, acts :: IsRun(ss, acts) && ss[0] == s && NoStop(ss, acts) ==>
      forall i :: 0 <= i < |acts| ==> !PipelineStep(acts[i])
  }

  /**
   The exact stall condition: before the destructor begins, a reachable state is
   one from which the signalling pipeline never moves again if and only if the
   signalling queue is full, the output thread is blocked pushing to it inside
   traverse, and the loop waits for the exclusive lock.
   */
  lemma StuckForeverIffStalled(s: State)
    requires Reachable(s) && !s.term
    ensures StuckForever(s) <==> Stalled(s)
  {
    ReachableInv(s);
    if Stalled(s) {
      forall ss, acts | IsRun(ss, acts) && ss[0] == s && NoStop(ss, acts)
        ensures forall i :: 0 <= i < |acts| ==> !PipelineStep(acts[i])
      {
        StallPersists(ss, acts, |acts|);
      }
    } else {
      var ss, acts := MovesEventually(s);
      assert PipelineStep(acts[|acts|-1]);
    }
  }

  // ------------------------------------------------------ the stall happens

  lemma Extend(s: State, a: Action) returns (s': State)
    requires Reachable(s) && Enabled(s, a)
    ensures s' == Apply(s, a) && Reachable(s')
  {
    s' := Apply(s, a);
    var ss, acts :| IsRun(ss, acts) && Init(ss[0]) && ss[|acts|] == s;
    RunGoesOn(ss, acts, a, s');
  }

  lemma RunGoesOn(ss: seq<State>, acts: seq<Action>, a: Action, s': State)
    requires IsRun(ss, acts) && Enabled(ss[|acts|], a) && s' == Apply(ss[|acts|], a)
    ensures IsRun(ss + [s'], acts + [a]) && (ss + [s'])[0] == ss[0] && (ss + [s'])[|acts| + 1] == s'
  {
    forall i | 0 <= i < |acts + [a]|
      ensures StepAt(ss + [s'], acts + [a], i)
    {
      assert i < |acts| ==> StepAt(ss, acts, i);
    }
  }

  const ASK_A := Msg("a", Input, Request, 0, Peer(1, Some("a")))
  const ASK_B := Msg("b", Input, Request, 0, Peer(2, Some("b")))

  /** The first peer's request has been handled. */
  function OnePeer(): State {
    State(false, false, Fifo([], SIGNALING_CAPACITY, false), Fifo([], FRAMES_CAPACITY, false),
          map["a" := 0], map[0 := NewClient("a")], LCheck, OCheck, MCheck, XIdle, None, [ASK_A], [], [], 0)
  }

  /** Nothing has happened but the arrival of what is in the queue. */
  function Quiet(items: seq<Msg>): State {
    State(false, false, Fifo(items, SIGNALING_CAPACITY, false), Fifo([], FRAMES_CAPACITY, false),
          map[], map[], LCheck, OCheck, MCheck, XIdle, None, [], [], [], 0)
  }

  lemma RequestArrives()
    ensures Reachable(Quiet([ASK_A]))
  {
    assert IsRun([Quiet([])], []) && Init([Quiet([])][0]);
    var s := Extend(Quiet([]), WsReceive(ASK_A));
    s := Extend(s, WsPush);
    assert s == Quiet([ASK_A]);
  }

  lemma PeerRegisters() returns (s: State)
    ensures Reachable(s) && s == OnePeer()
  {
    RequestArrives();
    s := Extend(Quiet([ASK_A]), Loop(false));
    s := Extend(s, Loop(false));
    s := Extend(s, Loop(false));
    s := Extend(s, Loop(false));
  }

  /** The peer disconnects, and the output thread takes its disconnect message. */
  lemma OutputTakesDisconnect() returns (s: State)
    ensures Reachable(s) && !s.term && s.ws == None && s.loop == LCheck
    ensures s.sigq == Fifo([], SIGNALING_CAPACITY, false) && |s.handled| == 1
    ensures s.out.OPush? && s.registry == map["a" := 0]
  {
    s := PeerRegisters();
    s := Extend(s, Callback(0, Disconnect, 0));
    s := Extend(s, Out(0, false));
    s := Extend(s, Out(0, false));
    assert 0 in s.registry.Values by { assert s.registry["a"] == 0; }
    s := Extend(s, Out(0, false));
    s := Extend(s, Out(0, false));
  }

  lemma {:induction false} FillQueue(s: State) returns (s': State)
    requires Reachable(s) && !s.term && s.ws == None && s.out.OPush? && s.loop.LEmplace?
    requires !s.sigq.stopped && |s.sigq.items| <= s.sigq.cap
    ensures Reachable(s') && Stalled(s') && !s'.term
    decreases s.sigq.cap - |s.sigq.items|
  {
    if |s.sigq.items| == s.sigq.cap {
      s' := s;
    } else {
      s' := Extend(s, WsReceive(ASK_A));
      s' := Extend(s', WsPush);
      s' := FillQueue(s');
    }
  }

  /** The documentation promises safe asynchronous exchange; the stall is nevertheless reachable. */
  lemma StallIsReachable() returns (s: State)
    ensures Reachable(s) && Stalled(s) && !s.term && StuckForever(s)
  {
    s := OutputTakesDisconnect();
    s := Extend(s, WsReceive(ASK_B));
    s := Extend(s, WsPush);
    s := Extend(s, Loop(false));
    s := Extend(s, Loop(false));
    s := Extend(s, Loop(false));
    s := FillQueue(s);
    StuckForeverIffStalled(s);
  }
}
