/** At the grain of the mutex, too: only the stall blocks the streamer, and shutdown always finishes. */
module StreamerStepsProgress {
  import opened Wrappers
  import opened BoundedFifo
  import opened StreamerModel
  import opened StreamerInvariant
  import opened StreamerStall
  import opened StreamerShutdown
  import opened StreamerMessages
  import opened StreamerSteps
  import Q = QueueMachine
  import QT = QueueTheorems

  // ------------------------------------------------------- what can go on

  function CallerOf(a: Action): Q.Tid {
    match a
    case Loop(_) => LOOP
    case Out(_, _) => OUT
    case WsPush => WS
    case _ => DTOR
  }

  /** A step of any thread in the queue, or the call by t. */
  predicate InQueueOrCallBy(x: Step, t: Q.Tid) {
    x.Queue? && (QT.Internal(x.qa) || (x.qa.Call? && x.qa.t == t))
  }

  /** Where the streamer over the atomic queue can take a step, this system can move towards it. */
  lemma CanGoOn(f: Fine, a: Action) returns (x: Step)
    requires Linked(f) && Enabled(f.s, a)
    ensures FineEnabled(f, x)
    ensures if UsesQueue(f.s, a) then InQueueOrCallBy(x, CallerOf(a)) else x == Direct(a)
  {
    if !UsesQueue(f.s, a) {
      return Direct(a);
    }
    var t := CallerOf(a);
    assert t in f.q.loc && Wants(f.s, t).Some?;
    if f.q.loc[t].Outside? {
      return Queue(Q.Action<Msg>.Call(t, Wants(f.s, t).value));
    }
    if QT.Quiet(f.q) {
      QT.QuietCallerIsBlocked(f.q, t);
    }
    var qa: Q.Action<Msg> :| QT.Internal(qa) && Q.Enabled(f.q, qa);
    x := Queue(qa);
  }

  // ------------------------------------------------------------- the stall

  /** A step of the loop, of the output thread, of a thread the loop waits for, or of whoever is in the queue. */
  predicate Moves(f: Fine, x: Step) {
    match x
    case Direct(a) => PipelineStep(a) || HelperStep(f.s, a)
    case Queue(_) => InQueueOrCallBy(x, LOOP) || InQueueOrCallBy(x, OUT)
  }

  /** Before the destructor begins, anything but the stalled state can move. */
  lemma OnlyStalledBlocks(f: Fine)
    requires Linked(f) && Inv(f.s) && !f.s.term && !Stalled(f.s)
    ensures exists x :: Moves(f, x) && FineEnabled(f, x)
  {
    OnlyStalledIsStuck(f.s);
    var a: Action :| (PipelineStep(a) || HelperStep(f.s, a)) && Enabled(f.s, a);
    var x := CanGoOn(f, a);
    assert Moves(f, x);
  }

  /** A stalled state stays stalled until the queue is stopped, whatever happens inside the queue. */
  lemma StallStays(f: Fine, x: Step)
    requires Linked(f) && Inv(f.s) && Stalled(f.s) && FineEnabled(f, x)
    requires !(x.Queue? && Returns(f.q, x.qa) && x.qa.t == DTOR)
    ensures var s' := FineApply(f, x).s;
            Stalled(s') && s'.handled == f.s.handled && s'.sent == f.s.sent && s'.registry == f.s.registry
  {
    StepRefines(f, x);
    if Seen(f, x).Some? {
      StallIsPermanent(f.s, Seen(f, x).value);
    }
  }

  // ------------------------------------------------------------- shutdown

  /** A step of one of the program's own threads; what happens inside the queue counts for all of them. */
  predicate Own(x: Step) {
    match x
    case Direct(a) => SystemStep(a)
    case Queue(qa) => QT.Internal(qa) || (qa.Call? && qa.t != WS)
  }

  ghost predicate FineAtRest(f: Fine) { forall x :: Own(x) ==> !FineEnabled(f, x) }

  lemma OwnStepExists(f: Fine, a: Action)
    requires Linked(f) && Enabled(f.s, a) && SystemStep(a)
    ensures exists x :: Own(x) && FineEnabled(f, x)
  {
    var x := CanGoOn(f, a);
    assert Own(x) && FineEnabled(f, x);
  }

  /** When no thread can move here, none can over the atomic queue, and so everything is joined. */
  lemma AtRestMeansJoined(f: Fine)
    requires Linked(f) && Inv(f.s) && f.s.term && FineAtRest(f)
    ensures AllJoined(f.s)
  {
    forall a: Action | SystemStep(a)
      ensures !Enabled(f.s, a)
    {
      if Enabled(f.s, a) {
        OwnStepExists(f, a);
      }
    }
    StuckMeansJoined(f.s);
  }

  /** A thread of the program that is about to call. */
  function ToCall(f: Fine, t: Q.Tid): nat {
    if Wants(f.s, t).Some? && t in f.q.loc && f.q.loc[t].Outside? then 1 else 0
  }

  function FineRank(f: Fine): nat {
    25 * Rank(f.s) + QT.Budget(f.q) + 6 * (ToCall(f, LOOP) + ToCall(f, OUT) + ToCall(f, DTOR))
  }

  /** A spurious wakeup, or a new message of the websocket entering the queue. */
  predicate Disturbs(x: Step) {
    x.Queue? && (x.qa.Spurious? || x.qa.Timeout? || (x.qa.Call? && x.qa.t == WS))
  }

  /** A thread that joins the contenders for the mutex costs at most five. */
  lemma ContendingCost(q: Q.State<Msg>, q': Q.State<Msg>, t: Q.Tid, l: Q.Loc<Msg>)
    requires t in q.loc && (q.loc[t].Outside? || q.loc[t].Asleep?) && (l.Calling? || l.Woken?)
    requires q'.loc == q.loc[t := l]
    ensures QT.Weight(q') <= QT.Weight(q) + 5
  {
    assert QT.InFlight(q') == QT.InFlight(q) + {t};
    assert QT.Contending(q') == QT.Contending(q) + {t};
    assert QT.Holding(q') == QT.Holding(q);
  }

  lemma CallCost(q: Q.State<Msg>, qa: Q.Action<Msg>)
    requires Q.Enabled(q, qa) && qa.Call?
    ensures QT.Budget(Q.Apply(q, qa)) <= QT.Budget(q) + 5
  {
    ContendingCost(q, Q.Apply(q, qa), qa.t, Q.Apply(q, qa).loc[qa.t]);
    QT.ThreadsFixed(q, qa);
  }

  lemma WakeCost(q: Q.State<Msg>, qa: Q.Action<Msg>)
    requires Q.Enabled(q, qa) && (qa.Spurious? || qa.Timeout?)
    ensures QT.Budget(Q.Apply(q, qa)) <= QT.Budget(q) + 5
  {
    ContendingCost(q, Q.Apply(q, qa), qa.t, Q.Apply(q, qa).loc[qa.t]);
    QT.ThreadsFixed(q, qa);
  }

  /** Inside the queue, the streamer unchanged: only the mover's place matters. */
  lemma SilentKeepsToCall(f: Fine, qa: Q.Action<Msg>, t: Q.Tid)
    requires Linked(f) && FineEnabled(f, Queue(qa)) && !Returns(f.q, qa) && t in f.q.loc
    ensures ToCall(FineApply(f, Queue(qa)), t) ==
            if qa.Call? && t == qa.t then ToCall(f, t) - 1 else ToCall(f, t)
  {
    MoverKeepsOp(f.q, qa);
    if t != qa.t {
      QueueKeepsOps(f.q, qa, t);
    }
  }

  lemma SilentRank(f: Fine, qa: Q.Action<Msg>)
    requires Linked(f) && FineEnabled(f, Queue(qa)) && !Returns(f.q, qa)
    ensures var f', x := FineApply(f, Queue(qa)), Queue(qa);
            FineRank(f') + (if Own(x) then 1 else 0) <= FineRank(f) + (if Disturbs(x) then 5 else 0)
  {
    SilentKeepsToCall(f, qa, LOOP);
    SilentKeepsToCall(f, qa, OUT);
    SilentKeepsToCall(f, qa, DTOR);
    if qa.Call? {
      CallCost(f.q, qa);
      assert qa.t in {LOOP, OUT, WS, DTOR};
    } else if qa.Spurious? || qa.Timeout? {
      WakeCost(f.q, qa);
    } else {
      QT.InternalLowersBudget(f.q, qa);
    }
  }

  /** The websocket's call returns: nothing changes for the program's threads. */
  lemma WsReturnRank(f: Fine, qa: Q.Action<Msg>)
    requires Linked(f) && Inv(f.s) && FineEnabled(f, Queue(qa)) && Returns(f.q, qa) && qa.t == WS
    ensures FineRank(FineApply(f, Queue(qa))) < FineRank(f)
  {
    ReturnIsEnabled(f, qa);
    EnvironmentKeepsRank(f.s, WsPush);
    QT.InternalLowersBudget(f.q, qa);
    forall t | t in {LOOP, OUT, DTOR}
      ensures ToCall(FineApply(f, Queue(qa)), t) == ToCall(f, t)
    {
      ReturnKeepsWants(f.s, WS, t);
      QueueKeepsOps(f.q, qa, t);
    }
  }

  lemma OwnReturnRank(f: Fine, qa: Q.Action<Msg>)
    requires Linked(f) && Inv(f.s) && f.s.term && FineEnabled(f, Queue(qa)) && Returns(f.q, qa) && qa.t != WS
    ensures FineRank(FineApply(f, Queue(qa))) < FineRank(f)
  {
    ReturnIsEnabled(f, qa);
    SystemStepLowersRank(f.s, StepOf(qa.t));
    QT.InternalLowersBudget(f.q, qa);
  }

  lemma OwnDirectRank(f: Fine, a: Action)
    requires Linked(f) && Inv(f.s) && f.s.term && FineEnabled(f, Direct(a)) && SystemStep(a)
    ensures FineRank(FineApply(f, Direct(a))) < FineRank(f)
  {
    SystemStepLowersRank(f.s, a);
  }

  lemma OtherDirectRank(f: Fine, a: Action)
    requires Linked(f) && Inv(f.s) && FineEnabled(f, Direct(a)) && !SystemStep(a)
    ensures FineRank(FineApply(f, Direct(a))) == FineRank(f)
  {
    EnvironmentKeepsRank(f.s, a);
    StepQueueEffect(f.s, a);
    DirectLeavesQueue(f.s, a);
  }

  lemma StepFineRank(f: Fine, x: Step)
    requires Linked(f) && Inv(f.s) && f.s.term && FineEnabled(f, x)
    ensures FineRank(FineApply(f, x)) + (if Own(x) then 1 else 0) <= FineRank(f) + (if Disturbs(x) then 5 else 0)
  {
    if x.Direct? {
      if SystemStep(x.a) {
        OwnDirectRank(f, x.a);
      } else {
        OtherDirectRank(f, x.a);
      }
    } else if !Returns(f.q, x.qa) {
      SilentRank(f, x.qa);
    } else if x.qa.t == WS {
      WsReturnRank(f, x.qa);
    } else {
      OwnReturnRank(f, x.qa);
    }
  }

  function OwnSteps(xs: seq<Step>, n: nat): nat
    requires n <= |xs|
  {
    if n == 0 then 0 else OwnSteps(xs, n - 1) + if Own(xs[n-1]) then 1 else 0
  }

  function Disturbances(xs: seq<Step>, n: nat): nat
    requires n <= |xs|
  {
    if n == 0 then 0 else Disturbances(xs, n - 1) + if Disturbs(xs[n-1]) then 1 else 0
  }

  /** A state this system can be in, with the destructor begun. */
  ghost predicate Ending(f: Fine) { Linked(f) && Reachable(f.s) && f.s.term }

  lemma EndingStays(f: Fine, x: Step)
    requires Ending(f) && FineEnabled(f, x)
    ensures Ending(FineApply(f, x))
  {
    StepKeepsLinked(f, x);
    StepRefines(f, x);
    if Seen(f, x).Some? {
      TermStays(f.s, Seen(f, x).value);
      var s' := Extend(f.s, Seen(f, x).value);
    }
  }

  lemma {:induction false} RankBoundsOwnSteps(fs: seq<Fine>, xs: seq<Step>, n: nat)
    requires FineRun(fs, xs) && Ending(fs[0]) && n <= |xs|
    ensures Ending(fs[n])
    ensures OwnSteps(xs, n) + FineRank(fs[n]) <= FineRank(fs[0]) + 5 * Disturbances(xs, n)
  {
    if n > 0 {
      RankBoundsOwnSteps(fs, xs, n - 1);
      ReachableInv(fs[n-1].s);
      StepFineRank(fs[n-1], xs[n-1]);
      EndingStays(fs[n-1], xs[n-1]);
    }
  }

  /**
   Shutdown finishes with the mutex and condition variables of the signalling queue
   in the picture: from any state this system can be in with the destructor begun,
   the program's threads take at most FineRank(start) steps, and five more for every
   spurious wakeup and every message that still arrives; and when none of them can
   take one, everything is joined.
   */
  lemma FineShutdownFinishes(fs: seq<Fine>, xs: seq<Step>)
    requires FineRun(fs, xs) && FineReachable(fs[0]) && fs[0].s.term
    ensures OwnSteps(xs, |xs|) <= FineRank(fs[0]) + 5 * Disturbances(xs, |xs|)
    ensures FineAtRest(fs[|xs|]) ==> AllJoined(fs[|xs|].s)
  {
    FineReachableIsLinked(fs[0]);
    RankBoundsOwnSteps(fs, xs, |xs|);
    EndingAtRestIsJoined(fs[|xs|]);
  }

  lemma FineReachableIsLinked(f: Fine)
    requires FineReachable(f)
    ensures Linked(f) && Reachable(f.s)
  {
    var fs: seq<Fine>, xs: seq<Step> :| FineRun(fs, xs) && FineInit(fs[0]) && fs[|xs|] == f;
    RunRefines(fs, xs, |xs|);
  }

  lemma EndingAtRestIsJoined(f: Fine)
    requires Ending(f)
    ensures FineAtRest(f) ==> AllJoined(f.s)
  {
    ReachableInv(f.s);
    if FineAtRest(f) {
      AtRestMeansJoined(f);
    }
  }
}
