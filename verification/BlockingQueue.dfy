/**
 The class itself: what each method does while it owns the mutex, written as
 the statements it is, over the queue's fields and the state of its mutex and
 condition variables.  Each method is one step of QueueMachine, so everything
 QueueTheorems proves of runs of the machine holds of this code.
 */
module BlockingQueueClass {
  import opened Wrappers
  import opened BoundedFifo
  import opened QueueMachine

  class BlockingQueue<T> {
    var queue: seq<T>
    const maxSize: nat
    var stopped: bool
    var mtx: Option<Tid>                 // the owner of the mutex
    var threads: map<Tid, Loc<T>>        // who waits for the mutex or on which condition variable

    ghost function State(): State<T>
      reads this
    {
      QueueMachine.State(Fifo(queue, maxSize, stopped), mtx, threads)
    }

    constructor (maxSize: nat, callers: set<Tid>)
      ensures Init(State())
      ensures State().fifo.cap == maxSize && threads.Keys == callers
    {
      this.maxSize := maxSize;
      queue, stopped, mtx := [], false, None;
      threads := map t | t in callers :: Outside;
    }

    /** The mutex is free and t, a newcomer or a woken waiter, gets it. */
    method Lock(t: Tid)
      requires t in threads && (threads[t].Calling? || threads[t].Woken?) && mtx == None
      modifies this`mtx, this`threads
      ensures var a := if old(threads[t]).Calling? then Action<T>.Enter(t) else Reenter(t);
              Enabled(old(State()), a) && State() == Apply(old(State()), a)
      ensures t in threads && threads[t] == Inside(old(threads[t].op), old(threads[t].Woken?),
                                                   old(threads[t].Woken? && threads[t].late))
    {
      mtx := Some(t);
      var l := threads[t];
      threads := threads[t := Inside(l.op, l.Woken?, if l.Woken? then l.late else false)];
    }

    /** `wait` found its predicate false: release the mutex and sleep. */
    method Wait(t: Tid)
      requires t in threads && threads[t].Inside?
      modifies this`mtx, this`threads
      ensures mtx == None && threads == old(threads)[t := Asleep(old(threads)[t].op)]
    {
      mtx, threads := None, threads[t := Asleep(threads[t].op)];
    }

    /** The lock goes out of scope and the call returns. */
    method Return(t: Tid)
      requires t in threads
      modifies this`mtx, this`threads
      ensures mtx == None && threads == old(threads)[t := Outside]
    {
      mtx, threads := None, threads[t := Outside];
    }

    /** `notify_one`: some sleeper of that side, any one of them, is woken. */
    method NotifyOne(side: Side) returns (ghost wake: Option<Tid>)
      modifies this`threads
      ensures WakeAllowed(old(threads), Some(side), wake)
      ensures threads == Wake(old(threads), wake)
    {
      wake := None;
      var sleepers := Sleepers(threads, side);
      if sleepers != {} {
        var w :| w in sleepers;
        threads := threads[w := Woken(threads[w].op, false)];
        wake := Some(w);
      }
    }

    method Push(t: Tid, item: T) returns (left: bool, ghost wake: Option<Tid>)
      requires t in threads && threads[t].Inside? && threads[t].op == QueueMachine.Push(item) && mtx == Some(t)
      modifies this`queue, this`mtx, this`threads
      ensures Enabled(old(State()), Run(t, wake))
      ensures State() == Apply(old(State()), Run(t, wake))
      ensures left <==> old(|queue| < maxSize || stopped)
      ensures t in threads && (left <==> threads[t] == Outside)
      ensures queue == old(queue) + if left && !stopped then [item] else []
    {
      left, wake := true, None;
      if !(|queue| < maxSize || stopped) {
        Wait(t);
        return false, None;
      }
      if stopped {
        Return(t);
        return;
      }
      queue := queue + [item];
      wake := NotifyOne(Consumer);
      Return(t);
    }

    method Pop(t: Tid) returns (left: bool, result: Option<T>, ghost wake: Option<Tid>)
      requires t in threads && threads[t].Inside? && threads[t].op == QueueMachine.Pop && mtx == Some(t)
      modifies this`queue, this`mtx, this`threads
      ensures Enabled(old(State()), Run(t, wake))
      ensures State() == Apply(old(State()), Run(t, wake))
      ensures left <==> old(queue != [] || stopped)
      ensures t in threads && (left <==> threads[t] == Outside)
      ensures result == if old(queue) != [] then Some(old(queue)[0]) else None
      ensures queue == if old(queue) != [] then old(queue)[1..] else old(queue)
    {
      left, result, wake := true, None, None;
      if !(queue != [] || stopped) {
        Wait(t);
        return false, None, None;
      }
      if queue == [] {
        Return(t);
        return;
      }
      result := Some(queue[0]);
      queue := queue[1..];
      wake := NotifyOne(Producer);
      Return(t);
    }

    /** `late` in the thread's state says that this waiter's own timeout woke it. */
    method PopFor(t: Tid) returns (left: bool, result: Option<T>, ghost wake: Option<Tid>)
      requires t in threads && threads[t].Inside? && threads[t].op == QueueMachine.PopFor && mtx == Some(t)
      modifies this`queue, this`mtx, this`threads
      ensures Enabled(old(State()), Run(t, wake))
      ensures State() == Apply(old(State()), Run(t, wake))
      ensures left <==> old(queue != [] || stopped || threads[t].late)
      ensures t in threads && (left <==> threads[t] == Outside)
      ensures result == if old(queue) != [] then Some(old(queue)[0]) else None
      ensures queue == if old(queue) != [] then old(queue)[1..] else old(queue)
    {
      left, result, wake := true, None, None;
      var ready := queue != [] || stopped;
      if !ready && !threads[t].late {
        Wait(t);
        return false, None, None;
      }
      if !ready || queue == [] {
        Return(t);
        return;
      }
      result := Some(queue[0]);
      queue := queue[1..];
      wake := NotifyOne(Producer);
      Return(t);
    }

    method Stop(t: Tid)
      requires t in threads && threads[t].Inside? && threads[t].op == QueueMachine.Stop && mtx == Some(t)
      modifies this`stopped, this`mtx, this`threads
      ensures Enabled(old(State()), Run(t, None))
      ensures State() == Apply(old(State()), Run(t, None))
      ensures stopped && forall u :: u in threads ==> !threads[u].Asleep?
    {
      stopped := true;
      threads := WakeAll(threads);
      Return(t);
    }
  }
}
