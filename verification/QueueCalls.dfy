/** What becomes of each call: it is carried out as it was made, and a timed pop whose timeout fired returns. */
module QueueCalls {
  import opened Wrappers
  import opened BoundedFifo
  import opened QueueMachine
  import opened QueueTheorems

  /** The call thread t made last. */
  function LastCall<T>(acts: seq<Action<T>>, t: Tid): Option<Op<T>> {
    if acts == [] then None
    else
      var a := acts[|acts|-1];
      if a.Call? && a.t == t then Some(a.op) else LastCall(acts[..|acts|-1], t)
  }

  /** Thread t's timeout has fired, and t has not given up the mutex since. */
  predicate TimedOut<T>(acts: seq<Action<T>>, t: Tid) {
    acts != [] &&
    var a := acts[|acts|-1];
    if a.Timeout? && a.t == t then true
    else if a.Run? && a.t == t then false
    else TimedOut(acts[..|acts|-1], t)
  }

  /** The state of thread t tells which call it is in and whether its timeout has fired. */
  ghost predicate Remembers<T>(s: State<T>, acts: seq<Action<T>>, t: Tid) {
    t in s.loc ==>
      var l := s.loc[t];
      && (!l.Outside? ==> LastCall(acts, t) == Some(l.op))
      && (TimedOut(acts, t) <==> (l.Woken? || l.Inside?) && l.late)
  }

  lemma StepRemembers<T>(s: State<T>, acts: seq<Action<T>>, a: Action<T>, t: Tid)
    requires Enabled(s, a) && Remembers(s, acts, t)
    ensures Remembers(Apply(s, a), acts + [a], t)
  {
    assert (acts + [a])[..|acts|] == acts;
    ThreadsFixed(s, a);
    if t in s.loc {
      StepOfThread(s, a, t);
    }
  }

  /** What a step does to one thread. */
  lemma StepOfThread<T>(s: State<T>, a: Action<T>, t: Tid)
    requires Enabled(s, a) && t in s.loc
    ensures t in Apply(s, a).loc
    ensures var l, l' := s.loc[t], Apply(s, a).loc[t];
            if a.t != t then l' == l || (l.Asleep? && l' == Woken(l.op, false))
            else
              match a
              case Call(_, op) => l.Outside? && l' == Calling(op)
              case Enter(_) => l.Calling? && l' == Inside(l.op, false, false)
              case Reenter(_) => l.Woken? && l' == Inside(l.op, true, l.late)
              case Spurious(_) => l.Asleep? && l' == Woken(l.op, false)
              case Timeout(_) => l.Asleep? && l.op.PopFor? && l' == Woken(l.op, true)
              case Run(_, _) => l.Inside? && (l' == Outside || l' == Asleep(l.op))
  {
  }

  lemma {:induction false} RunRemembers<T>(ss: seq<State<T>>, acts: seq<Action<T>>, n: nat, t: Tid)
    requires IsMachineRun(ss, acts) && Init(ss[0]) && n <= |acts|
    ensures Remembers(ss[n], acts[..n], t)
  {
    if n > 0 {
      RunRemembers(ss, acts, n - 1, t);
      StepRemembers(ss[n-1], acts[..n-1], acts[n-1], t);
      assert acts[..n-1] + [acts[n-1]] == acts[..n];
    }
  }

  /** Whether a call has to wait, told by the queue's contents. */
  predicate MustWait<T>(q: Fifo<T>, op: Op<T>) {
    !q.stopped && ((op.Push? && |q.items| >= q.cap) || ((op.Pop? || op.PopFor?) && q.items == []))
  }

  /** What a call that need not wait comes to. */
  ghost predicate Outcome<T>(q: Fifo<T>, op: Op<T>, e: Event<T>) {
    match op
    case Push(x) => e == (if q.stopped then Discarded(x) else Accepted(x))
    case Stop => e == Halted
    case _ => e == (if q.items == [] then PoppedNothing else Popped(q.items[0]))
  }

  /**
   Every call is carried out as it was made.  A thread that holds the mutex goes
   back to sleep exactly if its last call has to wait and its timeout has not
   fired; otherwise it leaves, and the call has its outcome.
   */
  lemma CallsAreCarriedOut<T>(ss: seq<State<T>>, acts: seq<Action<T>>, n: nat)
    requires IsMachineRun(ss, acts) && Init(ss[0]) && n < |acts| && acts[n].Run?
    ensures var t, q, e := acts[n].t, ss[n].fifo, EventOf(ss[n], acts[n]);
            && t in ss[n].loc && t in ss[n+1].loc && LastCall(acts[..n], t).Some?
            && var op := LastCall(acts[..n], t).value;
               if MustWait(q, op) && !TimedOut(acts[..n], t) then ss[n+1].loc[t] == Asleep(op) && e == Silent
               else ss[n+1].loc[t] == Outside && Outcome(q, op, e)
  {
    InitInv(ss[0]);
    RunKeepsInv(ss, acts, n);
    RunRemembers(ss, acts, n, acts[n].t);
    RunStepOutcome(ss[n], acts[n]);
  }

  lemma RunStepOutcome<T>(s: State<T>, a: Action<T>)
    requires Inv(s) && Enabled(s, a) && a.Run?
    ensures a.t in Apply(s, a).loc
    ensures var l, e := s.loc[a.t], EventOf(s, a);
            if MustWait(s.fifo, l.op) && !l.late then Apply(s, a).loc[a.t] == Asleep(l.op) && e == Silent
            else Apply(s, a).loc[a.t] == Outside && Outcome(s.fifo, l.op, e)
  {
  }

  /** On its way out of a timed pop whose timeout fired. */
  predicate Leaving<T>(l: Loc<T>) {
    (l.Woken? || l.Inside?) && l.op == PopFor && l.late
  }

  lemma {:induction false} StaysLeaving<T>(ss: seq<State<T>>, acts: seq<Action<T>>, i: nat, k: nat, t: Tid)
    requires IsMachineRun(ss, acts) && i < k <= |acts| && acts[i] == Timeout(t)
    requires forall j :: i < j < k ==> !(acts[j].Run? && acts[j].t == t)
    ensures t in ss[k].loc && Leaving(ss[k].loc[t])
  {
    if i + 1 < k {
      StaysLeaving(ss, acts, i, k - 1, t);
    }
    StepOfThread(ss[k-1], acts[k-1], t);
  }

  /**
   A timed pop whose timeout fires returns the next time it holds the mutex, in
   any run from any state: with the oldest item if there is one, else with nothing.
   */
  lemma TimedOutPopReturns<T>(ss: seq<State<T>>, acts: seq<Action<T>>, i: nat, j: nat, t: Tid)
    requires IsMachineRun(ss, acts) && i < j < |acts| && acts[i] == Timeout(t)
    requires acts[j].Run? && acts[j].t == t
    requires forall k :: i < k < j ==> !(acts[k].Run? && acts[k].t == t)
    ensures t in ss[j+1].loc && ss[j+1].loc[t] == Outside
    ensures var items := ss[j].fifo.items;
            EventOf(ss[j], acts[j]) == if items == [] then PoppedNothing else Popped(items[0])
  {
    StaysLeaving(ss, acts, i, j, t);
    StepOfThread(ss[j], acts[j], t);
  }

  /** Step k is thread t's return from its call. */
  ghost predicate Returns<T>(ss: seq<State<T>>, acts: seq<Action<T>>, k: nat, t: Tid)
    requires k < |acts| && |ss| == |acts| + 1
  {
    acts[k].Run? && acts[k].t == t && t in ss[k+1].loc && ss[k+1].loc[t] == Outside
  }

  lemma {:induction false} StillInCall<T>(
      ss: seq<State<T>>, acts: seq<Action<T>>, i: nat, n: nat, t: Tid, op: Op<T>)
    requires IsMachineRun(ss, acts) && i < n <= |acts| && acts[i] == Call(t, op)
    requires forall k :: i < k < n ==> !Returns(ss, acts, k, t)
    ensures t in ss[n].loc && !ss[n].loc[t].Outside? && ss[n].loc[t].op == op
  {
    if i + 1 < n {
      StillInCall(ss, acts, i, n - 1, t, op);
      assert !Returns(ss, acts, n - 1, t);
    }
    StepOfThread(ss[n-1], acts[n-1], t);
  }

  /**
   A call that was made has returned, when nothing moves by itself any more, or its
   caller sleeps because the call has to wait.
   */
  lemma CallReturnsOrBlocks<T(!new)>(ss: seq<State<T>>, acts: seq<Action<T>>, i: nat, n: nat, t: Tid, op: Op<T>)
    requires IsMachineRun(ss, acts) && Init(ss[0]) && i < n <= |acts| && acts[i] == Call(t, op) && Quiet(ss[n])
    ensures (exists k :: i < k < n && Returns(ss, acts, k, t))
            || (t in ss[n].loc && ss[n].loc[t] == Asleep(op) && MustWait(ss[n].fifo, op))
  {
    if forall k :: i < k < n ==> !Returns(ss, acts, k, t) {
      StillInCall(ss, acts, i, n, t, op);
      InitInv(ss[0]);
      RunKeepsInv(ss, acts, n);
      QuietCallerIsBlocked(ss[n], t);
    }
  }
}
