/**
 How long the signalling loop waits for the registry's exclusive lock where waiting
 writers go first: boundedly long, unless the pipeline stalls.
 */
module StreamerWriter {
  import opened Sets
  import opened BoundedFifo
  import opened StreamerModel
  import opened StreamerInvariant
  import opened StreamerStall
  import opened StreamerShutdown

  /** The loop waits for the lock, and no new reader is let in before it. */
  predicate Waits(s: State) { s.writerFirst && WriterWaits(s) && !s.term }

  /** A step of one of the two threads that read the registry. */
  predicate ReaderStep(a: Action) { a.Out? || a.Media? }

  /** How many more steps the output thread can take before it needs the lock again. */
  function OutWait(o: OutPc): nat {
    match o
    case OAcquire => 0
    case ODone => 0
    case OCheck => 1
    case OVisit(todo) => 2 + 4 * |todo|
    case OPush(todo, _) => 4 + 4 * |todo|
    case OTake(todo, _) => 5 + 4 * |todo|
  }

  function MediaWait(m: MediaPc): nat {
    match m
    case MAcquire(_) => 0
    case MDone => 0
    case MPop => 1
    case MCheck => 2
    case MVisit(_, todo) => 3 + |todo|
  }

  function WaitRank(s: State): nat { OutWait(s.out) + MediaWait(s.media) }

  lemma OutLowersWait(s: State, c: Inst, timeout: bool)
    requires Waits(s) && OutEnabled(s, c, timeout)
    ensures WaitRank(OutStep(s, c, timeout)) < WaitRank(s) && Waits(OutStep(s, c, timeout))
  {
  }

  lemma MediaLowersWait(s: State, c: Inst)
    requires ShutdownInv(s) && Waits(s) && MediaEnabled(s, c)
    ensures WaitRank(MediaStep(s, c)) < WaitRank(s) && Waits(MediaStep(s, c))
  {
  }

  lemma OthersKeepWait(s: State, a: Action)
    requires Waits(s) && Enabled(s, a) && !a.Loop? && !a.Dtor? && !ReaderStep(a)
    ensures WaitRank(Apply(s, a)) == WaitRank(s) && Waits(Apply(s, a))
  {
  }

  /** With n clients the loop waits for at most 5 + 5n steps of the readers. */
  lemma WaitIsShort(s: State)
    requires Inv(s)
    ensures WaitRank(s) <= 5 + 5 * |s.registry|
  {
    ValuesNoMoreThanKeys(s.registry);
    var all := s.registry.Values;
    if s.out.OVisit? {
      SubsetSize(s.out.todo, all);
    } else if s.out.OTake? {
      SubsetSize(s.out.todo + {s.out.c}, all);
    } else if s.out.OPush? {
      SubsetSize(s.out.todo + {s.out.m.origin.inst}, all);
    }
    if s.media.MVisit? {
      SubsetSize(s.media.todo, all);
    }
  }

  /** When no reader can move, the loop can take the lock, or the pipeline has stalled. */
  lemma WaitEnds(s: State)
    requires Inv(s) && Waits(s)
    requires forall a: Action :: ReaderStep(a) ==> !Enabled(s, a)
    ensures LoopEnabled(s) || Stalled(s)
  {
    if MediaReads(s) {
      MediaCanMove(s);
    } else if OutReads(s) && (s.out.OPush? ==> CanPush(s.sigq)) {
      OutCanMove(s);
    }
  }

  function ReaderSteps(acts: seq<Action>, n: nat): nat
    requires n <= |acts|
  {
    if n == 0 then 0 else ReaderSteps(acts, n - 1) + if ReaderStep(acts[n-1]) then 1 else 0
  }

  /** A run during which the loop does not get to move, and the destructor has not begun. */
  ghost predicate LoopHeldUp(acts: seq<Action>) {
    forall i :: 0 <= i < |acts| ==> !acts[i].Loop? && !acts[i].Dtor?
  }

  lemma {:induction false} WaitBoundsReaders(ss: seq<State>, acts: seq<Action>, n: nat)
    requires IsRun(ss, acts) && Inv(ss[0]) && Waits(ss[0]) && LoopHeldUp(acts) && n <= |acts|
    ensures ReaderSteps(acts, n) + WaitRank(ss[n]) <= WaitRank(ss[0])
    ensures Waits(ss[n])
  {
    if n > 0 {
      WaitBoundsReaders(ss, acts, n - 1);
      RunKeepsInv(ss, acts, n - 1);
      assert StepAt(ss, acts, n - 1);
      var s, a := ss[n-1], acts[n-1];
      if a.Out? {
        OutLowersWait(s, a.c, a.timeout);
      } else if a.Media? {
        MediaLowersWait(s, a.c);
      } else {
        OthersKeepWait(s, a);
      }
    }
  }

  /**
   From any reachable state in which the loop waits for the exclusive lock: however
   the other threads are scheduled, the readers take at most 5 + 5n steps before the
   loop can take it, or the pipeline has stalled.
   */
  lemma WriterIsServed(ss: seq<State>, acts: seq<Action>)
    requires IsRun(ss, acts) && Reachable(ss[0]) && Waits(ss[0]) && LoopHeldUp(acts)
    ensures ReaderSteps(acts, |acts|) <= 5 + 5 * |ss[0].registry|
    ensures (forall a: Action :: ReaderStep(a) ==> !Enabled(ss[|acts|], a)) ==>
              LoopEnabled(ss[|acts|]) || Stalled(ss[|acts|])
  {
    ReachableInv(ss[0]);
    WaitIsShort(ss[0]);
    WaitBoundsReaders(ss, acts, |acts|);
    RunKeepsInv(ss, acts, |acts|);
    if forall a: Action :: ReaderStep(a) ==> !Enabled(ss[|acts|], a) {
      WaitEnds(ss[|acts|]);
    }
  }
}
