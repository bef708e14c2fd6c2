/**
 The atomic meaning of a BlockingQueue: a bounded FIFO that can be stopped.
 Every completed call of the queue is one event.  QueueMachine shows that the
 mutex-and-condition-variable code produces only events allowed here, and
 StreamerModel uses this type for each of the program's queues.
 */
module BoundedFifo {

  datatype Fifo<T> = Fifo(items: seq<T>, cap: nat, stopped: bool)

  datatype Event<T> =
    | Silent                 // no call completed
    | Accepted(item: T)      // push stored the item
    | Discarded(item: T)     // push returned without storing: the queue is stopped
    | Popped(item: T)        // pop or pop_for returned an item
    | PoppedNothing          // pop or pop_for returned nullopt
    | Halted                 // stop returned

  predicate CanPush<T>(q: Fifo<T>) {
    q.stopped || |q.items| < q.cap
  }

  function AfterPush<T>(q: Fifo<T>, item: T): Fifo<T> {
    if q.stopped then q else q.(items := q.items + [item])
  }

  predicate CanPop<T>(q: Fifo<T>) {
    q.stopped || q.items != []
  }

  function AfterPop<T>(q: Fifo<T>): Fifo<T> {
    if q.items == [] then q else q.(items := q.items[1..])
  }

  /** What the atomic queue may do.  `late` tells a nullopt by timeout from one by stop. */
  ghost predicate Next<T>(q: Fifo<T>, e: Event<T>, late: bool, q': Fifo<T>) {
    match e
    case Silent => q' == q
    case Accepted(x) => !q.stopped && CanPush(q) && q' == AfterPush(q, x)
    case Discarded(x) => q.stopped && q' == q
    case Popped(x) => q.items != [] && x == q.items[0] && q' == AfterPop(q)
    case PoppedNothing => q.items == [] && (q.stopped || late) && q' == q
    case Halted => q' == q.(stopped := true)
  }

  function AcceptedOf<T>(es: seq<Event<T>>): seq<T> {
    if es == [] then []
    else AcceptedOf(es[..|es|-1]) + if es[|es|-1].Accepted? then [es[|es|-1].item] else []
  }

  function PoppedOf<T>(es: seq<Event<T>>): seq<T> {
    if es == [] then []
    else PoppedOf(es[..|es|-1]) + if es[|es|-1].Popped? then [es[|es|-1].item] else []
  }

  /** qs[0], es[0], qs[1], es[1], ... is a run of the atomic queue. */
  ghost predicate IsFifoRun<T>(qs: seq<Fifo<T>>, es: seq<Event<T>>, lates: seq<bool>) {
    && |qs| == |es| + 1 == |lates| + 1
    && forall i :: 0 <= i < |es| ==> Next(qs[i], es[i], lates[i], qs[i+1])
  }

  lemma RunPrefix<T>(qs: seq<Fifo<T>>, es: seq<Event<T>>, lates: seq<bool>)
    requires IsFifoRun(qs, es, lates) && es != []
    ensures IsFifoRun(qs[..|es|], es[..|es|-1], lates[..|es|-1])
  {
  }

  /** The bound is never exceeded: a run that starts within it stays within it. */
  lemma {:induction false} CapacityKept<T>(qs: seq<Fifo<T>>, es: seq<Event<T>>, lates: seq<bool>)
    requires IsFifoRun(qs, es, lates)
    requires |qs[0].items| <= qs[0].cap
    ensures |qs[|es|].items| <= qs[|es|].cap == qs[0].cap
  {
    if es != [] {
      RunPrefix(qs, es, lates);
      CapacityKept(qs[..|es|], es[..|es|-1], lates[..|es|-1]);
      assert Next(qs[|es|-1], es[|es|-1], lates[|es|-1], qs[|es|]);
    }
  }

  /**
   Order and conservation over any run: what was in the queue plus what was
   accepted is, in this order, what was popped plus what is still there.
   */
  lemma Regroup<T>(a: seq<T>, b: seq<T>, c: seq<T>)
    ensures (a + b) + c == a + (b + c)
  {
  }

  lemma {:induction false} FifoConservation<T>(qs: seq<Fifo<T>>, es: seq<Event<T>>, lates: seq<bool>)
    requires IsFifoRun(qs, es, lates)
    ensures qs[0].items + AcceptedOf(es) == PoppedOf(es) + qs[|es|].items
  {
    if es != [] {
      var n := |es| - 1;
      RunPrefix(qs, es, lates);
      FifoConservation(qs[..|es|], es[..n], lates[..n]);
      assert Next(qs[n], es[n], lates[n], qs[n+1]);
      assert qs[0].items + AcceptedOf(es[..n]) == PoppedOf(es[..n]) + qs[n].items;
      if es[n].Popped? {
        assert qs[n].items == [es[n].item] + qs[n+1].items;
        Regroup(PoppedOf(es[..n]), [es[n].item], qs[n+1].items);
      } else if es[n].Accepted? {
        Regroup(qs[0].items, AcceptedOf(es[..n]), [es[n].item]);
        Regroup(PoppedOf(es[..n]), qs[n].items, [es[n].item]);
      } else {
        assert AcceptedOf(es) == AcceptedOf(es[..n]) && PoppedOf(es) == PoppedOf(es[..n]);
      }
    }
  }

  /**
   After a stop the accepted log is frozen, the queue stays stopped, and pops
   hand out exactly the remaining items in order.
   */
  lemma {:induction false} StoppedQueueDrains<T>(qs: seq<Fifo<T>>, es: seq<Event<T>>, lates: seq<bool>)
    requires IsFifoRun(qs, es, lates) && qs[0].stopped
    ensures qs[|es|].stopped
    ensures AcceptedOf(es) == []
    ensures qs[0].items == PoppedOf(es) + qs[|es|].items
  {
    if es != [] {
      var n := |es| - 1;
      RunPrefix(qs, es, lates);
      StoppedQueueDrains(qs[..|es|], es[..n], lates[..n]);
      assert Next(qs[n], es[n], lates[n], qs[n+1]);
    }
    FifoConservation(qs, es, lates);
  }

  /** ... and a pop of a stopped queue returns nothing only once every remaining item was handed out. */
  lemma {:induction false} NothingOnlyWhenDrained<T>(qs: seq<Fifo<T>>, es: seq<Event<T>>, lates: seq<bool>, k: nat)
    requires IsFifoRun(qs, es, lates) && qs[0].stopped
    requires k < |es| && es[k].PoppedNothing?
    ensures PoppedOf(es[..k]) == qs[0].items
    ensures PoppedOf(es) == qs[0].items
  {
    assert IsFifoRun(qs[..k+1], es[..k], lates[..k]);
    StoppedQueueDrains(qs[..k+1], es[..k], lates[..k]);
    assert Next(qs[k], es[k], lates[k], qs[k+1]);
    assert PoppedOf(es[..k]) == qs[0].items;
    PoppedMonotone(es, k);
    StoppedQueueDrains(qs, es, lates);
  }

  lemma {:induction false} PoppedMonotone<T>(es: seq<Event<T>>, k: nat)
    requires k <= |es|
    ensures |PoppedOf(es[..k])| <= |PoppedOf(es)|
  {
    if k < |es| {
      PoppedMonotone(es[..|es|-1], k);
      assert es[..|es|-1][..k] == es[..k];
    } else {
      assert es[..k] == es;
    }
  }
}
