/**
 BlockingQueue at the grain of its mutex and its two condition variables.

 A thread is outside the queue, waiting for the mutex on entry, asleep on a
 condition variable, woken and waiting for the mutex again, or holding it.
 What a holder does between the test of its wait predicate and the release of
 the mutex (return, or the next wait) is one step: everything it touches is
 protected by the mutex.  Wakeups may be spurious, a timed waiter may time out
 whenever it sleeps, `notify_one` picks any sleeper, and the mutex goes to any
 contender, newcomers included (section [thread.condition.condvar] of ISO C++).
 */
module QueueMachine {
  import opened Wrappers
  import opened BoundedFifo

  type Tid = nat

  datatype Op<T> = Push(item: T) | Pop | PopFor | Stop

  datatype Loc<T> =
    | Outside
    | Calling(op: Op<T>)                            // locking the mutex for the first time
    | Asleep(op: Op<T>)
    | Woken(op: Op<T>, late: bool)                  // late: woken by its own timeout
    | Inside(op: Op<T>, woken: bool, late: bool)    // owns the mutex

  /** Which condition variable: consumers wait on `_condNotEmpty`, producers on `_condNotFull`. */
  datatype Side = Consumer | Producer

  datatype State<T> = State(fifo: Fifo<T>, owner: Option<Tid>, loc: map<Tid, Loc<T>>)

  datatype Action<T> =
    | Call(t: Tid, op: Op<T>)
    | Enter(t: Tid)
    | Reenter(t: Tid)
    | Spurious(t: Tid)
    | Timeout(t: Tid)
    | Run(t: Tid, wake: Option<Tid>)   // wake: the thread notify_one picks

  predicate OnSide<T>(op: Op<T>, side: Side) {
    match side
    case Consumer => op.Pop? || op.PopFor?
    case Producer => op.Push?
  }

  predicate Sleeps<T>(l: Loc<T>, side: Side) {
    l.Asleep? && OnSide(l.op, side)
  }

  /** Woken from the condition variable and not yet back in `wait` or out of the call. */
  predicate IsWoken<T>(l: Loc<T>, side: Side) {
    (l.Woken? || (l.Inside? && l.woken)) && OnSide(l.op, side)
  }

  function Sleepers<T>(loc: map<Tid, Loc<T>>, side: Side): set<Tid> {
    set t | t in loc && Sleeps(loc[t], side)
  }

  function WokenOnes<T>(loc: map<Tid, Loc<T>>, side: Side): set<Tid> {
    set t | t in loc && IsWoken(loc[t], side)
  }

  /** The predicate each wait is given: true means the call does not (or no longer) wait. */
  predicate Ready<T>(q: Fifo<T>, op: Op<T>) {
    match op
    case Push(_) => CanPush(q)
    case Pop => CanPop(q)
    case PopFor => CanPop(q)
    case Stop => true
  }

  /** The holder goes (back) to sleep instead of leaving. */
  predicate GoesToSleep<T>(q: Fifo<T>, op: Op<T>, late: bool) {
    !Ready(q, op) && !(op.PopFor? && late)
  }

  /** The condition variable notified by the call when it leaves, if any. */
  function Notifies<T>(q: Fifo<T>, op: Op<T>): Option<Side> {
    match op
    case Push(_) => if q.stopped then None else Some(Consumer)
    case Stop => None
    case _ => if q.items == [] then None else Some(Producer)
  }

  predicate WakeAllowed<T>(loc: map<Tid, Loc<T>>, side: Option<Side>, wake: Option<Tid>) {
    match side
    case None => wake == None
    case Some(sd) =>
      if wake == None then Sleepers(loc, sd) == {}
      else wake.value in loc && Sleeps(loc[wake.value], sd)
  }

  function Wake<T>(loc: map<Tid, Loc<T>>, wake: Option<Tid>): map<Tid, Loc<T>> {
    if wake.Some? && wake.value in loc && loc[wake.value].Asleep?
    then loc[wake.value := Woken(loc[wake.value].op, false)] else loc
  }

  function WakeAll<T>(loc: map<Tid, Loc<T>>): map<Tid, Loc<T>> {
    map t | t in loc :: if loc[t].Asleep? then Woken(loc[t].op, false) else loc[t]
  }

  function FifoAfter<T>(q: Fifo<T>, op: Op<T>): Fifo<T> {
    match op
    case Push(x) => AfterPush(q, x)
    case Stop => q.(stopped := true)
    case _ => AfterPop(q)
  }

  predicate Enabled<T>(s: State<T>, a: Action<T>) {
    && a.t in s.loc
    && var l := s.loc[a.t];
    match a
    case Call(_, _) => l.Outside?
    case Enter(_) => l.Calling? && s.owner == None
    case Reenter(_) => l.Woken? && s.owner == None
    case Spurious(_) => l.Asleep?
    case Timeout(_) => l.Asleep? && l.op.PopFor?
    case Run(t, wake) =>
      l.Inside? && s.owner == Some(t) &&
      if GoesToSleep(s.fifo, l.op, l.late) then wake == None
      else WakeAllowed(s.loc[t := Outside], Notifies(s.fifo, l.op), wake)
  }

  function AfterRun<T>(s: State<T>, t: Tid, wake: Option<Tid>): State<T>
    requires t in s.loc && s.loc[t].Inside?
  {
    var l := s.loc[t];
    if GoesToSleep(s.fifo, l.op, l.late) then
      s.(owner := None, loc := s.loc[t := Asleep(l.op)])
    else
      var out := s.loc[t := Outside];
      State(FifoAfter(s.fifo, l.op), None, if l.op.Stop? then WakeAll(out) else Wake(out, wake))
  }

  function Apply<T>(s: State<T>, a: Action<T>): State<T>
    requires Enabled(s, a)
  {
    var l := s.loc[a.t];
    match a
    case Call(t, op) => s.(loc := s.loc[t := Calling(op)])
    case Enter(t) => s.(owner := Some(t), loc := s.loc[t := Inside(l.op, false, false)])
    case Reenter(t) => s.(owner := Some(t), loc := s.loc[t := Inside(l.op, true, l.late)])
    case Spurious(t) => s.(loc := s.loc[t := Woken(l.op, false)])
    case Timeout(t) => s.(loc := s.loc[t := Woken(l.op, true)])
    case Run(t, wake) => AfterRun(s, t, wake)
  }

  /** What the step means to the atomic queue: the call that completes in it, if any. */
  function EventOf<T>(s: State<T>, a: Action<T>): Event<T>
    requires Enabled(s, a)
  {
    if !a.Run? then Silent else
    var l := s.loc[a.t];
    if GoesToSleep(s.fifo, l.op, l.late) then Silent else
    match l.op
    case Push(x) => if s.fifo.stopped then Discarded(x) else Accepted(x)
    case Stop => Halted
    case _ => if s.fifo.items == [] then PoppedNothing else Popped(s.fifo.items[0])
  }

  /** Was the nullopt of this step excused by a timeout? */
  function LateOf<T>(s: State<T>, a: Action<T>): bool
    requires Enabled(s, a)
  {
    a.Run? && s.loc[a.t].late
  }

  ghost predicate Init<T>(s: State<T>) {
    && s.fifo.items == [] && !s.fifo.stopped
    && s.owner == None
    && forall t :: t in s.loc ==> s.loc[t] == Outside
  }

  // ---------------------------------------------------------------- invariant

  ghost predicate MutexInv<T>(s: State<T>) {
    && (forall t :: t in s.loc ==> (s.loc[t].Inside? <==> s.owner == Some(t)))
    && (s.owner.Some? ==> s.owner.value in s.loc)
  }

  ghost predicate SleepInv<T>(s: State<T>) {
    && (forall t :: t in s.loc && s.loc[t].Asleep? ==> !s.loc[t].op.Stop? && !s.fifo.stopped)
    && (forall t :: t in s.loc && (s.loc[t].Woken? || s.loc[t].Inside?) && s.loc[t].late ==> s.loc[t].op.PopFor?)
  }

  /** No lost wakeup, consumer side: sleepers can only be left behind if the woken can take everything. */
  ghost predicate ConsumersServed<T>(s: State<T>) {
    Sleepers(s.loc, Consumer) != {} ==> |s.fifo.items| <= |WokenOnes(s.loc, Consumer)|
  }

  /** No lost wakeup, producer side. */
  ghost predicate ProducersServed<T>(s: State<T>) {
    Sleepers(s.loc, Producer) != {} ==> s.fifo.cap - |s.fifo.items| <= |WokenOnes(s.loc, Producer)|
  }

  ghost predicate Inv<T>(s: State<T>) {
    && |s.fifo.items| <= s.fifo.cap
    && MutexInv(s) && SleepInv(s)
    && ConsumersServed(s) && ProducersServed(s)
  }

  // How one thread's move changes the two counts.

  lemma MoveSleepers<T>(loc: map<Tid, Loc<T>>, t: Tid, l: Loc<T>, side: Side)
    ensures Sleepers(loc[t := l], side) ==
            if Sleeps(l, side) then Sleepers(loc, side) + {t} else Sleepers(loc, side) - {t}
  {
  }

  lemma MoveWoken<T>(loc: map<Tid, Loc<T>>, t: Tid, l: Loc<T>, side: Side)
    ensures WokenOnes(loc[t := l], side) ==
            if IsWoken(l, side) then WokenOnes(loc, side) + {t} else WokenOnes(loc, side) - {t}
  {
  }

  /** A move that neither starts nor ends a sleep or a wake, on either side, keeps every count. */
  lemma MoveKeepsCounts<T>(loc: map<Tid, Loc<T>>, t: Tid, l: Loc<T>, side: Side)
    requires t in loc && Sleeps(l, side) == Sleeps(loc[t], side) && IsWoken(l, side) == IsWoken(loc[t], side)
    ensures Sleepers(loc[t := l], side) == Sleepers(loc, side)
    ensures WokenOnes(loc[t := l], side) == WokenOnes(loc, side)
  {
    MoveSleepers(loc, t, l, side);
    MoveWoken(loc, t, l, side);
  }

  /** A sleeper that wakes leaves one count and joins the other. */
  lemma MoveWakes<T>(loc: map<Tid, Loc<T>>, t: Tid, l: Loc<T>, side: Side)
    requires t in loc && Sleeps(loc[t], side) && IsWoken(l, side)
    ensures Sleepers(loc[t := l], side) == Sleepers(loc, side) - {t}
    ensures |WokenOnes(loc[t := l], side)| == |WokenOnes(loc, side)| + 1
  {
    MoveSleepers(loc, t, l, side);
    MoveWoken(loc, t, l, side);
    assert t !in WokenOnes(loc, side);
  }

  lemma MoveOffSide<T>(loc: map<Tid, Loc<T>>, t: Tid, l: Loc<T>, side: Side)
    requires t in loc && !Sleeps(l, side) && !IsWoken(l, side) && !Sleeps(loc[t], side)
    ensures Sleepers(loc[t := l], side) == Sleepers(loc, side)
    ensures |WokenOnes(loc[t := l], side)| == |WokenOnes(loc, side)| - if IsWoken(loc[t], side) then 1 else 0
  {
    MoveSleepers(loc, t, l, side);
    MoveWoken(loc, t, l, side);
  }

  lemma WakeAllEmptiesSleepers<T>(loc: map<Tid, Loc<T>>, side: Side)
    ensures Sleepers(WakeAll(loc), side) == {}
  {
  }

  /** Waking one sleeper of a side: either nobody slept, or one more is woken. */
  lemma NotifyOne<T>(loc: map<Tid, Loc<T>>, side: Side, wake: Option<Tid>)
    requires WakeAllowed(loc, Some(side), wake)
    ensures Sleepers(Wake(loc, wake), side) != {} ==>
              |WokenOnes(Wake(loc, wake), side)| == |WokenOnes(loc, side)| + 1
  {
    if wake.Some? {
      MoveWakes(loc, wake.value, Woken(loc[wake.value].op, false), side);
    }
  }

  /** Waking a sleeper of one side does not touch the other side. */
  lemma NotifyOther<T>(loc: map<Tid, Loc<T>>, side: Side, wake: Option<Tid>, other: Side)
    requires WakeAllowed(loc, Some(side), wake) && other != side
    ensures Sleepers(Wake(loc, wake), other) == Sleepers(loc, other)
    ensures WokenOnes(Wake(loc, wake), other) == WokenOnes(loc, other)
  {
    if wake.Some? {
      MoveKeepsCounts(loc, wake.value, Woken(loc[wake.value].op, false), other);
    }
  }

  lemma EasyStepKeepsCounts<T>(s: State<T>, a: Action<T>)
    requires Inv(s) && Enabled(s, a) && !a.Run?
    ensures ConsumersServed(Apply(s, a)) && ProducersServed(Apply(s, a))
  {
    var s' := Apply(s, a);
    var l, l' := s.loc[a.t], s'.loc[a.t];
    forall side: Side
      ensures Sleepers(s'.loc, side) <= Sleepers(s.loc, side)
      ensures |WokenOnes(s'.loc, side)| >= |WokenOnes(s.loc, side)|
    {
      assert s'.loc == s.loc[a.t := l'];
      if Sleeps(l, side) {
        MoveWakes(s.loc, a.t, l', side);
      } else {
        MoveKeepsCounts(s.loc, a.t, l', side);
      }
    }
    assert Sleepers(s'.loc, Consumer) <= Sleepers(s.loc, Consumer);
    assert Sleepers(s'.loc, Producer) <= Sleepers(s.loc, Producer);
  }

  lemma SleepStepKeepsCounts<T>(s: State<T>, a: Action<T>)
    requires Inv(s) && Enabled(s, a) && a.Run?
    requires var l := s.loc[a.t]; GoesToSleep(s.fifo, l.op, l.late)
    ensures ConsumersServed(Apply(s, a)) && ProducersServed(Apply(s, a))
  {
    var l := s.loc[a.t];
    var side := if l.op.Push? then Producer else Consumer;
    var other := if l.op.Push? then Consumer else Producer;
    MoveKeepsCounts(s.loc, a.t, Asleep(l.op), other);
  }

  lemma LeaveStepKeepsCounts<T>(s: State<T>, a: Action<T>)
    requires Inv(s) && Enabled(s, a) && a.Run?
    requires var l := s.loc[a.t]; !GoesToSleep(s.fifo, l.op, l.late)
    ensures ConsumersServed(Apply(s, a)) && ProducersServed(Apply(s, a))
  {
    var l := s.loc[a.t];
    var out := s.loc[a.t := Outside];
    if l.op.Stop? {
      WakeAllEmptiesSleepers(out, Consumer);
      WakeAllEmptiesSleepers(out, Producer);
    } else {
      MoveOffSide(s.loc, a.t, Outside, Consumer);
      MoveOffSide(s.loc, a.t, Outside, Producer);
      var n := Notifies(s.fifo, l.op);
      if n.Some? {
        var other := if n.value.Consumer? then Producer else Consumer;
        NotifyOne(out, n.value, a.wake);
        NotifyOther(out, n.value, a.wake, other);
        assert Sleepers(out, Producer) == Sleepers(s.loc, Producer);
      } else {
        assert Wake(out, a.wake) == out;
      }
      if s.fifo.stopped {
        NotStoppedSleepers(s);
      }
    }
  }

  lemma NotStoppedSleepers<T>(s: State<T>)
    requires SleepInv(s) && s.fifo.stopped
    ensures Sleepers(s.loc, Consumer) == {} && Sleepers(s.loc, Producer) == {}
  {
  }

  lemma StepKeepsInv<T>(s: State<T>, a: Action<T>)
    requires Inv(s) && Enabled(s, a)
    ensures Inv(Apply(s, a))
  {
    if !a.Run? {
      EasyStepKeepsCounts(s, a);
    } else if var l := s.loc[a.t]; GoesToSleep(s.fifo, l.op, l.late) {
      SleepStepKeepsCounts(s, a);
    } else {
      LeaveStepKeepsCounts(s, a);
    }
  }
}
