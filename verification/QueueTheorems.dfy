/** What QueueMachine guarantees over whole runs: refinement, no lost wakeup, and that every schedule settles. */
module QueueTheorems {
  import opened Wrappers
  import opened Sets
  import opened BoundedFifo
  import opened QueueMachine

  /** ss[0], acts[0], ss[1], ... is a run of the machine (from any state, not only an initial one). */
  ghost predicate IsMachineRun<T>(ss: seq<State<T>>, acts: seq<Action<T>>) {
    && |ss| == |acts| + 1
    && forall i :: 0 <= i < |acts| ==> Enabled(ss[i], acts[i]) && ss[i+1] == Apply(ss[i], acts[i])
  }

  ghost predicate Reachable<T(!new)>(s: State<T>) {
    exists ss: seq<State<T>>, acts: seq<Action<T>> ::
      IsMachineRun(ss, acts) && Init(ss[0]) && ss[|acts|] == s
  }

  lemma {:induction false} RunKeepsInv<T>(ss: seq<State<T>>, acts: seq<Action<T>>, i: nat)
    requires IsMachineRun(ss, acts) && Inv(ss[0]) && i <= |acts|
    ensures Inv(ss[i])
  {
    if i > 0 {
      RunKeepsInv(ss, acts, i - 1);
      StepKeepsInv(ss[i-1], acts[i-1]);
    }
  }

  lemma InitInv<T>(s: State<T>)
    requires Init(s)
    ensures Inv(s)
  {
    assert Sleepers(s.loc, Consumer) == {} && Sleepers(s.loc, Producer) == {};
  }

  lemma ReachableInv<T(!new)>(s: State<T>)
    requires Reachable(s)
    ensures Inv(s)
  {
    var ss: seq<State<T>>, acts: seq<Action<T>> :| IsMachineRun(ss, acts) && Init(ss[0]) && ss[|acts|] == s;
    InitInv(ss[0]);
    RunKeepsInv(ss, acts, |acts|);
  }

  // ------------------------------------------------------------- no lost wakeup

  /**
   No lost wakeup, in every reachable state, whatever spurious wakeups, timeouts
   and newcomers did before: a consumer can be left asleep only if the woken
   consumers suffice for everything in the queue, a producer only if the woken
   producers suffice for all the free space.
   */
  lemma NoLostWakeup<T(!new)>(s: State<T>)
    requires Reachable(s)
    ensures Sleepers(s.loc, Consumer) != {} ==> |s.fifo.items| <= |WokenOnes(s.loc, Consumer)|
    ensures Sleepers(s.loc, Producer) != {} ==> s.fifo.cap - |s.fifo.items| <= |WokenOnes(s.loc, Producer)|
    ensures s.fifo.stopped ==> Sleepers(s.loc, Consumer) == {} && Sleepers(s.loc, Producer) == {}
  {
    ReachableInv(s);
    if s.fifo.stopped {
      NotStoppedSleepers(s);
    }
  }

  /** With room for at least one item, a consumer and a producer never both sleep with nobody woken. */
  lemma NeverBothAsleepUnattended<T(!new)>(s: State<T>)
    requires Reachable(s) && s.fifo.cap > 0
    requires Sleepers(s.loc, Consumer) != {} && Sleepers(s.loc, Producer) != {}
    ensures WokenOnes(s.loc, Consumer) != {} || WokenOnes(s.loc, Producer) != {}
  {
    NoLostWakeup(s);
  }

  /** The machine moves by itself: no new call, no timeout, no spurious wakeup. */
  predicate Internal<T>(a: Action<T>) {
    a.Enter? || a.Reenter? || a.Run?
  }

  ghost predicate Quiet<T(!new)>(s: State<T>) {
    forall a: Action<T> :: Internal(a) ==> !Enabled(s, a)
  }

  ghost predicate OnlyIdle<T>(s: State<T>) {
    forall t :: t in s.loc ==> s.loc[t].Outside? || s.loc[t].Asleep?
  }

  /** While a thread is neither outside nor asleep, some thread can move. */
  lemma QuietMeansIdle<T(!new)>(s: State<T>)
    requires Inv(s) && Quiet(s)
    ensures OnlyIdle(s)
  {
    forall t | t in s.loc
      ensures s.loc[t].Outside? || s.loc[t].Asleep?
    {
      if s.owner == None {
        assert !Enabled(s, Action<T>.Enter(t)) && !Enabled(s, Action<T>.Reenter(t));
      } else {
        HolderCanRun(s);
      }
    }
  }

  lemma HolderCanRun<T>(s: State<T>)
    requires Inv(s) && s.owner.Some?
    ensures exists a: Action<T> :: a.Run? && Enabled(s, a)
  {
    var t := s.owner.value;
    var l := s.loc[t];
    if GoesToSleep(s.fifo, l.op, l.late) {
      assert Enabled(s, Action<T>.Run(t, None));
    } else {
      var out := s.loc[t := Outside];
      var n := Notifies(s.fifo, l.op);
      if n.Some? && Sleepers(out, n.value) != {} {
        var w :| w in Sleepers(out, n.value);
        assert Enabled(s, Action<T>.Run(t, Some(w)));
      } else {
        assert Enabled(s, Action<T>.Run(t, None));
      }
    }
  }

  /**
   When nothing moves by itself any more, every call still asleep is one the
   atomic queue would not serve either.  This is what allows the rest of the
   project to use the atomic queue: blocked means full, or empty, and not stopped.
   */
  lemma QuietMeansBlocked<T(!new)>(s: State<T>, t: Tid)
    requires Reachable(s) && Quiet(s)
    requires t in s.loc && !s.loc[t].Outside?
    ensures s.loc[t].Asleep? && !Ready(s.fifo, s.loc[t].op)
  {
    ReachableInv(s);
    QuietCallerIsBlocked(s, t);
  }

  lemma QuietCallerIsBlocked<T(!new)>(s: State<T>, t: Tid)
    requires Inv(s) && Quiet(s)
    requires t in s.loc && !s.loc[t].Outside?
    ensures s.loc[t].Asleep? && !Ready(s.fifo, s.loc[t].op)
  {
    QuietMeansIdle(s);
    var side := if s.loc[t].op.Push? then Producer else Consumer;
    assert t in Sleepers(s.loc, side);
    assert WokenOnes(s.loc, side) == {};
  }

  // ----------------------------------------------------- every schedule settles

  function InFlight<T>(s: State<T>): set<Tid> { set t | t in s.loc && !s.loc[t].Outside? }

  function Contending<T>(s: State<T>): set<Tid> { set t | t in s.loc && (s.loc[t].Calling? || s.loc[t].Woken?) }

  function Holding<T>(s: State<T>): set<Tid> { set t | t in s.loc && s.loc[t].Inside? }

  function Weight<T>(s: State<T>): nat { 3 * |InFlight(s)| + 2 * |Contending(s)| + |Holding(s)| }

  /** Bounds the number of internal steps still possible. */
  function Budget<T>(s: State<T>): nat {
    Weight(s) + if s.fifo.stopped then 0 else 6 * |s.loc.Keys| + 1
  }

  lemma WeightBound<T>(s: State<T>)
    ensures Weight(s) <= 6 * |s.loc.Keys|
  {
    SubsetSize(InFlight(s), s.loc.Keys);
    SubsetSize(Contending(s), s.loc.Keys);
    SubsetSize(Holding(s), s.loc.Keys);
  }

  lemma SleepLowersWeight<T>(s: State<T>, t: Tid)
    requires MutexInv(s) && t in s.loc && s.loc[t].Inside?
    ensures Weight(s.(owner := None, loc := s.loc[t := Asleep(s.loc[t].op)])) < Weight(s)
  {
    var s' := s.(owner := None, loc := s.loc[t := Asleep(s.loc[t].op)]);
    assert t in Holding(s) && Holding(s') == Holding(s) - {t};
    assert InFlight(s') == InFlight(s);
    assert Contending(s') == Contending(s);
  }

  lemma LeaveLowersWeight<T>(s: State<T>, t: Tid, wake: Option<Tid>, q: Fifo<T>)
    requires t in s.loc && s.loc[t].Inside?
    requires wake.Some? ==> wake.value in s.loc && s.loc[wake.value].Asleep?
    ensures Weight(State(q, None, Wake(s.loc[t := Outside], wake))) < Weight(s)
  {
    var s' := State(q, None, Wake(s.loc[t := Outside], wake));
    assert t in Holding(s) && Holding(s') == Holding(s) - {t};
    assert t in InFlight(s) && InFlight(s') == InFlight(s) - {t};
    assert Contending(s') == Contending(s) + (if wake.Some? then {wake.value} else {});
  }

  lemma RunLowersWeight<T>(s: State<T>, a: Action<T>)
    requires Inv(s) && Enabled(s, a) && a.Run? && !s.loc[a.t].op.Stop?
    ensures Weight(Apply(s, a)) < Weight(s)
  {
    var l := s.loc[a.t];
    if GoesToSleep(s.fifo, l.op, l.late) {
      SleepLowersWeight(s, a.t);
    } else {
      LeaveLowersWeight(s, a.t, a.wake, FifoAfter(s.fifo, l.op));
    }
  }

  lemma StopLowersBudget<T>(s: State<T>, a: Action<T>)
    requires Inv(s) && Enabled(s, a) && a.Run? && s.loc[a.t].op.Stop?
    ensures Budget(Apply(s, a)) < Budget(s)
  {
    var t := a.t;
    var s' := Apply(s, a);
    assert s'.loc.Keys == s.loc.Keys;
    if s.fifo.stopped {
      assert t in Holding(s);
      assert Holding(s') == Holding(s) - {t};
      assert InFlight(s') == InFlight(s) - {t};
      assert Contending(s') == Contending(s);
    } else {
      WeightBound(s');
    }
  }

  lemma ThreadsFixed<T>(s: State<T>, a: Action<T>)
    requires Enabled(s, a)
    ensures Apply(s, a).loc.Keys == s.loc.Keys
    ensures s.fifo.stopped ==> Apply(s, a).fifo.stopped
    ensures a.Run? && !s.loc[a.t].op.Stop? ==> Apply(s, a).fifo.stopped == s.fifo.stopped
  {
  }

  lemma HoldLowersWeight<T>(s: State<T>, s': State<T>, t: Tid, l: Loc<T>)
    requires t in s.loc && (s.loc[t].Calling? || s.loc[t].Woken?) && l.Inside? && s'.loc == s.loc[t := l]
    ensures Weight(s') < Weight(s)
  {
    assert InFlight(s') == InFlight(s);
    assert t in Contending(s) && Contending(s') == Contending(s) - {t};
    assert t !in Holding(s) && Holding(s') == Holding(s) + {t};
  }

  lemma LockLowersWeight<T>(s: State<T>, a: Action<T>)
    requires Inv(s) && Enabled(s, a) && (a.Enter? || a.Reenter?)
    ensures Weight(Apply(s, a)) < Weight(s) && Apply(s, a).fifo == s.fifo
  {
    HoldLowersWeight(s, Apply(s, a), a.t, Apply(s, a).loc[a.t]);
  }

  lemma InternalLowersBudget<T>(s: State<T>, a: Action<T>)
    requires Inv(s) && Enabled(s, a) && Internal(a)
    ensures Budget(Apply(s, a)) < Budget(s)
  {
    ThreadsFixed(s, a);
    if !a.Run? {
      LockLowersWeight(s, a);
    } else if s.loc[a.t].op.Stop? {
      StopLowersBudget(s, a);
    } else {
      RunLowersWeight(s, a);
    }
  }

  /** However the scheduler interleaves them, only boundedly many internal steps follow each other ... */
  lemma {:induction false} EveryScheduleSettles<T>(ss: seq<State<T>>, acts: seq<Action<T>>)
    requires IsMachineRun(ss, acts) && Inv(ss[0])
    requires forall a :: a in acts ==> Internal(a)
    ensures |acts| + Budget(ss[|acts|]) <= Budget(ss[0])
    decreases |acts|
  {
    if acts != [] {
      var n := |acts| - 1;
      EveryScheduleSettles(ss[..|acts|], acts[..n]);
      RunKeepsInv(ss, acts, n);
      assert acts[n] in acts;
      InternalLowersBudget(ss[n], acts[n]);
    }
  }

  /**
   ... so shutdown finishes: once the queue is stopped, no schedule without new
   calls is longer than the weight, and where it can go no further every thread
   has left the queue.
   */
  lemma StoppedQueueEmptiesOut<T(!new)>(ss: seq<State<T>>, acts: seq<Action<T>>)
    requires IsMachineRun(ss, acts) && Reachable(ss[0]) && ss[0].fifo.stopped
    requires forall a :: a in acts ==> Internal(a)
    ensures |acts| <= Weight(ss[0])
    ensures Quiet(ss[|acts|]) ==> forall t :: t in ss[|acts|].loc ==> ss[|acts|].loc[t] == Outside
  {
    ReachableInv(ss[0]);
    EveryScheduleSettles(ss, acts);
    StaysStopped(ss, acts, |acts|);
    RunKeepsInv(ss, acts, |acts|);
    if Quiet(ss[|acts|]) {
      QuietMeansIdle(ss[|acts|]);
    }
  }

  lemma {:induction false} StaysStopped<T>(ss: seq<State<T>>, acts: seq<Action<T>>, i: nat)
    requires IsMachineRun(ss, acts) && ss[0].fifo.stopped && i <= |acts|
    ensures ss[i].fifo.stopped
  {
    if i > 0 {
      StaysStopped(ss, acts, i - 1);
      assert ss[i] == Apply(ss[i-1], acts[i-1]);
    }
  }

  // ------------------------------------------------------------------ refinement

  function EventsOf<T>(ss: seq<State<T>>, acts: seq<Action<T>>): (es: seq<Event<T>>)
    requires IsMachineRun(ss, acts)
    ensures |es| == |acts|
  {
    seq(|acts|, i requires 0 <= i < |acts| => EventOf(ss[i], acts[i]))
  }

  function LatesOf<T>(ss: seq<State<T>>, acts: seq<Action<T>>): (ls: seq<bool>)
    requires IsMachineRun(ss, acts)
    ensures |ls| == |acts|
  {
    seq(|acts|, i requires 0 <= i < |acts| => LateOf(ss[i], acts[i]))
  }

  function FifosOf<T>(ss: seq<State<T>>): (qs: seq<Fifo<T>>)
    ensures |qs| == |ss|
  {
    seq(|ss|, i requires 0 <= i < |ss| => ss[i].fifo)
  }

  /** Each machine step is one step of the atomic queue, or invisible to it. */
  lemma StepRefinesFifo<T>(s: State<T>, a: Action<T>)
    requires Inv(s) && Enabled(s, a)
    ensures Next(s.fifo, EventOf(s, a), LateOf(s, a), Apply(s, a).fifo)
  {
  }

  /** A nullopt is late only in a timed pop: pop itself returns nothing only when stopped and empty. */
  lemma OnlyTimedPopsAreLate<T>(s: State<T>, a: Action<T>)
    requires Inv(s) && Enabled(s, a) && EventOf(s, a).PoppedNothing?
    ensures s.fifo.items == []
    ensures s.loc[a.t].op == Pop ==> s.fifo.stopped
    ensures !s.fifo.stopped ==> s.loc[a.t].op == PopFor && LateOf(s, a)
  {
  }

  /** Refinement over any run: the events of the machine are a run of the atomic bounded FIFO. */
  lemma MachineRefinesFifo<T>(ss: seq<State<T>>, acts: seq<Action<T>>)
    requires IsMachineRun(ss, acts) && Inv(ss[0])
    ensures IsFifoRun(FifosOf(ss), EventsOf(ss, acts), LatesOf(ss, acts))
  {
    var qs, es, ls := FifosOf(ss), EventsOf(ss, acts), LatesOf(ss, acts);
    forall i | 0 <= i < |es|
      ensures Next(qs[i], es[i], ls[i], qs[i+1])
    {
      RunKeepsInv(ss, acts, i);
      StepRefinesFifo(ss[i], acts[i]);
    }
  }

  /** Conservation and order for the concurrent code, from its initial state. */
  lemma AcceptedIsPoppedThenHeld<T>(ss: seq<State<T>>, acts: seq<Action<T>>)
    requires IsMachineRun(ss, acts) && Init(ss[0])
    ensures AcceptedOf(EventsOf(ss, acts)) == PoppedOf(EventsOf(ss, acts)) + ss[|acts|].fifo.items
    ensures |ss[|acts|].fifo.items| <= ss[0].fifo.cap
  {
    InitInv(ss[0]);
    MachineRefinesFifo(ss, acts);
    FifoConservation(FifosOf(ss), EventsOf(ss, acts), LatesOf(ss, acts));
    CapacityKept(FifosOf(ss), EventsOf(ss, acts), LatesOf(ss, acts));
  }

  /** After stop, for the concurrent code: nothing more is accepted, the rest is handed out in order, then nothing. */
  lemma AfterStop<T(!new)>(ss: seq<State<T>>, acts: seq<Action<T>>)
    requires IsMachineRun(ss, acts) && Reachable(ss[0]) && ss[0].fifo.stopped
    ensures AcceptedOf(EventsOf(ss, acts)) == []
    ensures ss[0].fifo.items == PoppedOf(EventsOf(ss, acts)) + ss[|acts|].fifo.items
    ensures forall k :: 0 <= k < |acts| && EventsOf(ss, acts)[k].PoppedNothing? ==>
              PoppedOf(EventsOf(ss, acts)[..k]) == ss[0].fifo.items
    ensures forall t :: t in ss[|acts|].loc ==> !ss[|acts|].loc[t].Asleep?
  {
    ReachableInv(ss[0]);
    MachineRefinesFifo(ss, acts);
    var qs, es, ls := FifosOf(ss), EventsOf(ss, acts), LatesOf(ss, acts);
    StoppedQueueDrains(qs, es, ls);
    forall k | 0 <= k < |acts| && es[k].PoppedNothing?
      ensures PoppedOf(es[..k]) == ss[0].fifo.items
    {
      NothingOnlyWhenDrained(qs, es, ls, k);
    }
    StaysStopped(ss, acts, |acts|);
    RunKeepsInv(ss, acts, |acts|);
  }
}
