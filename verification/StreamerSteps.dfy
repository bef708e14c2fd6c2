/**
 The streamer with its signalling queue at the grain of the mutex and the condition
 variables: the machine of StreamerModel and that of QueueMachine, side by side.
 A push, pop or stop of the queue is no longer one step, but a call, the wait for
 the mutex, sleeping and waking, and the return.  Every run of this system is a
 run of the streamer over the atomic queue, with steps in between that the
 streamer does not see, and it can always go on when that one can.
 */
module StreamerSteps {
  import opened Wrappers
  import opened BoundedFifo
  import opened StreamerModel
  import opened StreamerInvariant
  import opened StreamerStall
  import opened StreamerShutdown
  import opened StreamerMessages
  import Q = QueueMachine
  import QT = QueueTheorems

  datatype Fine = Fine(s: State, q: Q.State<Msg>)

  datatype Step =
    | Direct(a: Action)              // a step that does not involve the signalling queue
    | Queue(qa: Q.Action<Msg>)       // a step of a thread in one of its methods

  // The threads that use the queue.
  const LOOP: Q.Tid := 0
  const OUT: Q.Tid := 1
  const WS: Q.Tid := 2
  const DTOR: Q.Tid := 3

  /** The call a thread has to make, or is in, at its present point. */
  function Wants(s: State, t: Q.Tid): Option<Q.Op<Msg>> {
    if t == LOOP && s.loop.LPop? then Some(Q.Pop)
    else if t == OUT && s.out.OPush? then Some(Q.Push(s.out.m))
    else if t == WS && s.ws.Some? then Some(Q.Push(s.ws.value))
    else if t == DTOR && s.dtor.XStopSignaling? then Some(Q.Stop)
    else None
  }

  /** The streamer's step that such a call is. */
  function StepOf(t: Q.Tid): Action {
    if t == LOOP then Loop(false) else if t == OUT then Out(0, false) else if t == WS then WsPush else Dtor("")
  }

  predicate UsesQueue(s: State, a: Action) {
    match a
    case Loop(_) => s.loop.LPop?
    case Out(_, _) => s.out.OPush?
    case WsPush => true
    case Dtor(_) => s.dtor.XStopSignaling?
    case _ => false
  }

  /** The call returns in this step. */
  predicate Returns(q: Q.State<Msg>, qa: Q.Action<Msg>)
    requires Q.Enabled(q, qa)
  {
    qa.Run? && !Q.GoesToSleep(q.fifo, q.loc[qa.t].op, q.loc[qa.t].late)
  }

  predicate FineEnabled(f: Fine, x: Step) {
    match x
    case Direct(a) => Enabled(f.s, a) && !UsesQueue(f.s, a)
    case Queue(qa) => Q.Enabled(f.q, qa) && (qa.Call? ==> Wants(f.s, qa.t) == Some(qa.op))
  }

  function FineApply(f: Fine, x: Step): Fine
    requires FineEnabled(f, x)
  {
    match x
    case Direct(a) => f.(s := Apply(f.s, a))
    case Queue(qa) =>
      Fine(if Returns(f.q, qa) && Enabled(f.s, StepOf(qa.t)) then Apply(f.s, StepOf(qa.t)) else f.s,
           Q.Apply(f.q, qa))
  }

  ghost predicate FineInit(f: Fine) {
    Init(f.s) && f.q == Q.State(f.s.sigq, None, NobodyIn())
  }

  ghost predicate FineRun(fs: seq<Fine>, xs: seq<Step>) {
    && |fs| == |xs| + 1
    && forall i :: 0 <= i < |xs| ==> FineEnabled(fs[i], xs[i]) && fs[i+1] == FineApply(fs[i], xs[i])
  }

  /** Whoever is in the queue is there for the call of its present point. */
  ghost predicate Placed(s: State, loc: map<Q.Tid, Q.Loc<Msg>>) {
    && loc.Keys == {LOOP, OUT, WS, DTOR}
    && forall t :: t in loc ==> loc[t].Outside? || Wants(s, t) == Some(loc[t].op)
  }

  ghost predicate Linked(f: Fine) { Q.Inv(f.q) && f.q.fifo == f.s.sigq && Placed(f.s, f.q.loc) }

  // ------------------------------------------------------------- refinement

  lemma LoopLeavesQueue(s: State, underLock: bool)
    requires LoopEnabled(s) && !s.loop.LPop?
    ensures LoopStep(s, underLock).sigq == s.sigq && LoopStep(s, underLock).dtor == s.dtor
  {
  }

  lemma OutLeavesQueue(s: State, c: Inst, timeout: bool)
    requires OutEnabled(s, c, timeout)
    ensures !s.out.OPush? ==> OutStep(s, c, timeout).sigq == s.sigq
    ensures OutStep(s, c, timeout).dtor == s.dtor
  {
  }

  lemma DtorLeavesQueue(s: State, id: Id)
    requires DtorEnabled(s, id)
    ensures !s.dtor.XStopSignaling? ==> DtorStep(s, id).sigq == s.sigq
  {
  }

  lemma MediaLeavesQueue(s: State, c: Inst)
    requires MediaEnabled(s, c)
    ensures MediaStep(s, c).sigq == s.sigq && MediaStep(s, c).dtor == s.dtor
  {
  }

  lemma DirectLeavesQueue(s: State, a: Action)
    requires Enabled(s, a) && !UsesQueue(s, a)
    ensures Apply(s, a).sigq == s.sigq && (!a.Dtor? ==> Apply(s, a).dtor == s.dtor)
  {
    if a.Loop? {
      LoopLeavesQueue(s, a.underLock);
    } else if a.Out? {
      OutLeavesQueue(s, a.c, a.timeout);
    } else if a.Dtor? {
      DtorLeavesQueue(s, a.id);
    } else if a.Media? {
      MediaLeavesQueue(s, a.c);
    }
  }

  /** What a thread wants from the queue is changed by nobody else. */
  lemma DirectKeepsWants(s: State, a: Action, t: Q.Tid)
    requires Enabled(s, a) && !UsesQueue(s, a) && Wants(s, t).Some?
    ensures Wants(Apply(s, a), t) == Wants(s, t)
  {
    StepQueueEffect(s, a);
    DirectLeavesQueue(s, a);
  }

  /** When a call returns, the atomic queue would let it, with the same effect on the queue. */
  lemma ReturnIsEnabled(f: Fine, qa: Q.Action<Msg>)
    requires Linked(f) && Q.Enabled(f.q, qa) && Returns(f.q, qa)
    ensures Enabled(f.s, StepOf(qa.t)) && UsesQueue(f.s, StepOf(qa.t))
    ensures Apply(f.s, StepOf(qa.t)).sigq == Q.Apply(f.q, qa).fifo
  {
    assert Wants(f.s, qa.t) == Some(f.q.loc[qa.t].op);
  }

  lemma ReturnKeepsWants(s: State, t: Q.Tid, u: Q.Tid)
    requires t in {LOOP, OUT, WS, DTOR} && Wants(s, t).Some? && Enabled(s, StepOf(t)) && u != t
    ensures Wants(Apply(s, StepOf(t)), u) == Wants(s, u)
  {
  }

  /** The machine's step changes no caller's call: it may be woken, or be the one that moves. */
  lemma QueueKeepsOps(q: Q.State<Msg>, qa: Q.Action<Msg>, u: Q.Tid)
    requires Q.Enabled(q, qa) && u in q.loc && u != qa.t
    ensures u in Q.Apply(q, qa).loc
    ensures q.loc[u].Outside? <==> Q.Apply(q, qa).loc[u].Outside?
    ensures !q.loc[u].Outside? ==> Q.Apply(q, qa).loc[u].op == q.loc[u].op
  {
  }

  lemma MoverKeepsOp(q: Q.State<Msg>, qa: Q.Action<Msg>)
    requires Q.Inv(q) && Q.Enabled(q, qa)
    ensures var l := Q.Apply(q, qa).loc;
            && qa.t in l && l.Keys == q.loc.Keys
            && (Returns(q, qa) ==> l[qa.t].Outside?)
            && (!Returns(q, qa) ==> !l[qa.t].Outside? && l[qa.t].op == if qa.Call? then qa.op else q.loc[qa.t].op)
    ensures !Returns(q, qa) ==> Q.Apply(q, qa).fifo == q.fifo
  {
    QT.ThreadsFixed(q, qa);
  }

  lemma QueueKeepsPlaced(f: Fine, qa: Q.Action<Msg>)
    requires Linked(f) && FineEnabled(f, Queue(qa))
    ensures var f' := FineApply(f, Queue(qa)); Placed(f'.s, f'.q.loc) && f'.q.fifo == f'.s.sigq
  {
    MoverKeepsOp(f.q, qa);
    var f' := FineApply(f, Queue(qa));
    if Returns(f.q, qa) {
      ReturnIsEnabled(f, qa);
    }
    forall u | u in f'.q.loc
      ensures f'.q.loc[u].Outside? || Wants(f'.s, u) == Some(f'.q.loc[u].op)
    {
      if u != qa.t {
        QueueKeepsOps(f.q, qa, u);
        if Returns(f.q, qa) {
          ReturnKeepsWants(f.s, qa.t, u);
        }
      }
    }
  }

  lemma StepKeepsLinked(f: Fine, x: Step)
    requires Linked(f) && FineEnabled(f, x)
    ensures Linked(FineApply(f, x))
  {
    var f' := FineApply(f, x);
    if x.Direct? {
      DirectLeavesQueue(f.s, x.a);
      forall t | t in f.q.loc
        ensures f.q.loc[t].Outside? || Wants(f'.s, t) == Some(f.q.loc[t].op)
      {
        if !f.q.loc[t].Outside? {
          DirectKeepsWants(f.s, x.a, t);
        }
      }
    } else {
      QueueKeepsPlaced(f, x.qa);
      Q.StepKeepsInv(f.q, x.qa);
    }
  }

  /** The streamer's step that a step of this system is, if it is one. */
  function Seen(f: Fine, x: Step): Option<Action>
    requires FineEnabled(f, x)
  {
    match x
    case Direct(a) => Some(a)
    case Queue(qa) => if Returns(f.q, qa) then Some(StepOf(qa.t)) else None
  }

  /** Each step is a step of the streamer over the atomic queue, or invisible to it. */
  lemma StepRefines(f: Fine, x: Step)
    requires Linked(f) && FineEnabled(f, x)
    ensures match Seen(f, x)
            case Some(a) => Enabled(f.s, a) && FineApply(f, x).s == Apply(f.s, a)
            case None => FineApply(f, x).s == f.s
  {
    if x.Queue? && Returns(f.q, x.qa) {
      ReturnIsEnabled(f, x.qa);
    }
  }

  lemma InitLinked(f: Fine)
    requires FineInit(f)
    ensures Linked(f) && Reachable(f.s)
  {
    QT.InitInv(f.q);
    var ss: seq<State>, acts: seq<Action> := [f.s], [];
    assert IsRun(ss, acts) && Init(ss[0]) && ss[|acts|] == f.s;
  }

  /** So every run only visits states that the streamer over the atomic queue can reach. */
  lemma {:induction false} RunRefines(fs: seq<Fine>, xs: seq<Step>, n: nat)
    requires FineRun(fs, xs) && FineInit(fs[0]) && n <= |xs|
    ensures Linked(fs[n]) && Reachable(fs[n].s)
  {
    if n == 0 {
      InitLinked(fs[0]);
    } else {
      RunRefines(fs, xs, n - 1);
      var f, x := fs[n-1], xs[n-1];
      StepKeepsLinked(f, x);
      StepRefines(f, x);
      if Seen(f, x).Some? {
        var s' := Extend(f.s, Seen(f, x).value);
      }
    }
  }

  // ------------------------------------------------------------ completeness

  ghost predicate FineReachable(f: Fine) {
    exists fs: seq<Fine>, xs: seq<Step> :: FineRun(fs, xs) && FineInit(fs[0]) && fs[|xs|] == f
  }

  lemma FineRunGoesOn(fs: seq<Fine>, xs: seq<Step>, x: Step, f': Fine)
    requires FineRun(fs, xs) && FineEnabled(fs[|xs|], x) && f' == FineApply(fs[|xs|], x)
    ensures FineRun(fs + [f'], xs + [x]) && (fs + [f'])[0] == fs[0] && (fs + [f'])[|xs| + 1] == f'
  {
  }

  lemma FineExtend(f: Fine, x: Step)
    requires FineReachable(f) && FineEnabled(f, x)
    ensures FineReachable(FineApply(f, x))
  {
    var fs: seq<Fine>, xs: seq<Step> :| FineRun(fs, xs) && FineInit(fs[0]) && fs[|xs|] == f;
    FineRunGoesOn(fs, xs, x, FineApply(f, x));
    var fs', xs' := fs + [FineApply(f, x)], xs + [x];
    assert FineRun(fs', xs') && FineInit(fs'[0]) && fs'[|xs'|] == FineApply(f, x);
  }

  function NobodyIn(): map<Q.Tid, Q.Loc<Msg>> {
    map[LOOP := Q.Outside, OUT := Q.Outside, WS := Q.Outside, DTOR := Q.Outside]
  }

  /** The streamer in state s, with nobody in the queue. */
  function Idle(s: State): Fine { Fine(s, Q.State(s.sigq, None, NobodyIn())) }

  lemma UseIsStepOf(s: State, a: Action) returns (t: Q.Tid)
    requires Enabled(s, a) && UsesQueue(s, a)
    ensures t in NobodyIn() && Wants(s, t).Some? && Enabled(s, StepOf(t)) && Apply(s, a) == Apply(s, StepOf(t))
    ensures Q.Ready(s.sigq, Wants(s, t).value)
    ensures Apply(s, a).sigq == Q.FifoAfter(s.sigq, Wants(s, t).value)
  {
    t := match a case Loop(_) => LOOP case Out(_, _) => OUT case WsPush => WS case _ => DTOR;
  }

  /** A whole call by t, with nobody else in the queue: call, lock, run. */
  lemma CallRuns(q: Q.State<Msg>, t: Q.Tid, op: Q.Op<Msg>)
    requires q.loc == NobodyIn() && q.owner == None && t in q.loc && Q.Ready(q.fifo, op)
    ensures var call := Q.Action<Msg>.Call(t, op);
            Q.Enabled(q, call) && var q1 := Q.Apply(q, call);
            var enter := Q.Action<Msg>.Enter(t);
            Q.Enabled(q1, enter) && var q2 := Q.Apply(q1, enter);
            var run := Q.Action<Msg>.Run(t, None);
            && Q.Enabled(q2, run) && Returns(q2, run)
            && Q.Apply(q2, run) == Q.State(Q.FifoAfter(q.fifo, op), None, NobodyIn())
  {
    var q2 := Q.State(q.fifo, Some(t), q.loc[t := Q.Inside(op, false, false)]);
    var out := q2.loc[t := Q.Outside];
    assert out == NobodyIn();
    assert Q.Sleepers(out, Q.Consumer) == {} && Q.Sleepers(out, Q.Producer) == {};
    assert Q.WakeAll(out) == out;
  }

  lemma IdleStep(s: State, a: Action)
    requires FineReachable(Idle(s)) && Enabled(s, a)
    ensures FineReachable(Idle(Apply(s, a)))
  {
    if !UsesQueue(s, a) {
      DirectLeavesQueue(s, a);
      FineExtend(Idle(s), Direct(a));
      assert FineApply(Idle(s), Direct(a)) == Idle(Apply(s, a));
    } else {
      var t := UseIsStepOf(s, a);
      var op := Wants(s, t).value;
      CallRuns(Idle(s).q, t, op);
      var call, enter, run := Q.Action<Msg>.Call(t, op), Q.Action<Msg>.Enter(t), Q.Action<Msg>.Run(t, None);
      FineExtend(Idle(s), Queue(call));
      var f1 := FineApply(Idle(s), Queue(call));
      FineExtend(f1, Queue(enter));
      var f2 := FineApply(f1, Queue(enter));
      FineExtend(f2, Queue(run));
      assert FineApply(f2, Queue(run)) == Idle(Apply(s, a));
    }
  }

  lemma {:induction false} RunIsSeen(ss: seq<State>, acts: seq<Action>, n: nat)
    requires IsRun(ss, acts) && Init(ss[0]) && n <= |acts|
    ensures FineReachable(Idle(ss[n]))
  {
    if n == 0 {
      var fs: seq<Fine>, xs: seq<Step> := [Idle(ss[0])], [];
      assert FineRun(fs, xs) && FineInit(fs[0]) && fs[|xs|] == Idle(ss[0]);
    } else {
      RunIsSeen(ss, acts, n - 1);
      assert StepAt(ss, acts, n - 1);
      IdleStep(ss[n-1], acts[n-1]);
    }
  }

  /**
   The two systems reach the same states of the streamer: the finer one no others,
   and each of them, for instance with nobody in the queue.
   */
  lemma SameStates(s: State)
    ensures Reachable(s) <==> exists f :: FineReachable(f) && f.s == s
  {
    if Reachable(s) {
      var ss, acts :| IsRun(ss, acts) && Init(ss[0]) && ss[|acts|] == s;
      RunIsSeen(ss, acts, |acts|);
      assert FineReachable(Idle(s)) && Idle(s).s == s;
    }
    if f :| FineReachable(f) && f.s == s {
      var fs: seq<Fine>, xs: seq<Step> :| FineRun(fs, xs) && FineInit(fs[0]) && fs[|xs|] == f;
      RunRefines(fs, xs, |xs|);
    }
  }
}
