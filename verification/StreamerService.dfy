/**
 Each thread does its work within a bounded number of its own steps, however the
 others are scheduled, as long as its queue is not stopped: the loop handles a
 message, a client applies an answer, the media thread completes a broadcast, and
 the output thread a pass over the registry that takes a message from every client.
 */
module StreamerService {
  import opened Sets
  import opened StreamerModel
  import opened StreamerInvariant
  import opened StreamerMessages
  import opened StreamerShutdown
  import opened StreamerBroadcast

  datatype Thread = TheLoop | TheOutput | TheMedia | TheClient(c: Inst)

  predicate StepOf(a: Action, th: Thread) {
    match th
    case TheLoop => a.Loop?
    case TheOutput => a.Out?
    case TheMedia => a.Media?
    case TheClient(c) => a == ClientThread(c)
  }

  /** How many of the first n steps are this thread's. */
  function StepsOf(acts: seq<Action>, n: nat, th: Thread): nat
    requires n <= |acts|
  {
    if n == 0 then 0 else StepsOf(acts, n - 1, th) + if StepOf(acts[n-1], th) then 1 else 0
  }

  /** A step of the thread lowers its rank, but for `price` more if it completes a piece of work. */
  predicate Pays(acts: seq<Action>, th: Thread, rank: seq<nat>, done: seq<nat>, price: nat, i: nat)
    requires i < |acts| && i + 1 < |rank| == |done|
  {
    && done[i] <= done[i+1] <= done[i] + 1
    && rank[i+1] + (if StepOf(acts[i], th) then 1 else 0) <= rank[i] + if done[i+1] > done[i] then price else 0
  }

  predicate AllPay(acts: seq<Action>, n: nat, th: Thread, rank: seq<nat>, done: seq<nat>, price: nat)
    requires n <= |acts| && |rank| == |done| > n
  {
    n == 0 || (AllPay(acts, n - 1, th, rank, done, price) && Pays(acts, th, rank, done, price, n - 1))
  }

  lemma {:induction false} Telescope(
      acts: seq<Action>, n: nat, th: Thread, rank: seq<nat>, done: seq<nat>, price: nat)
    requires n <= |acts| && |rank| == |done| > n && AllPay(acts, n, th, rank, done, price)
    ensures done[n] >= done[0] && StepsOf(acts, n, th) + rank[n] <= rank[0] + price * (done[n] - done[0])
  {
    if n > 0 {
      Telescope(acts, n - 1, th, rank, done, price);
      Distribute(price, done[n-1] - done[0], done[n] - done[n-1]);
    }
  }

  lemma Distribute(x: int, a: int, b: int)
    ensures x * (a + b) == x * a + x * b
  {
  }

  /** Then the thread completes a piece of work at least every `price` of its steps. */
  lemma KeepsWorking(acts: seq<Action>, n: nat, th: Thread, rank: seq<nat>, done: seq<nat>, price: nat)
    requires n <= |acts| && |rank| == |done| > n && AllPay(acts, n, th, rank, done, price) && rank[0] <= price
    ensures done[n] >= done[0] && StepsOf(acts, n, th) <= price * (done[n] - done[0] + 1)
  {
    Telescope(acts, n, th, rank, done, price);
    Distribute(price, done[n] - done[0], 1);
  }

  // ------------------------------------------------------------------ the loop

  /** How many steps the loop needs to pop a message, with the handling of the last one before that. */
  function StepsToPop(l: LoopPc): nat {
    match l
    case LDone => 0
    case LJoin => 1
    case LPop => 1
    case LCheck => 2
    case LSend(_) => 3
    case LSet(_, _) => 3
    case LGet(_) => 4
    case LDestroy(_, stage, _) => if stage <= JOIN_STAGE then 7 - stage else 3
    case LErase(_) => 8
    case LEmplace(_, _) => 8
    case LBuild(_, _) => 9
  }

  predicate HandlesOne(s: State) { s.loop.LPop? && s.sigq.items != [] }

  lemma LoopComesCloser(s: State, underLock: bool)
    requires LoopEnabled(s) && !s.sigq.stopped
    ensures StepsToPop(LoopStep(s, underLock).loop) + 1 <= StepsToPop(s.loop) + if HandlesOne(s) then 9 else 0
  {
  }

  lemma StopStays(ss: seq<State>, acts: seq<Action>, n: nat)
    requires IsRun(ss, acts) && n < |acts| && ss[n].sigq.stopped
    ensures ss[n+1].sigq.stopped
  {
    assert StepAt(ss, acts, n);
    StepQueueEffect(ss[n], acts[n]);
  }

  lemma {:induction false} NotStoppedBefore(ss: seq<State>, acts: seq<Action>, k: nat, n: nat)
    requires IsRun(ss, acts) && k <= n <= |acts| && !ss[n].sigq.stopped
    ensures !ss[k].sigq.stopped
    decreases n - k
  {
    if k < n {
      NotStoppedBefore(ss, acts, k + 1, n);
      if ss[k].sigq.stopped {
        StopStays(ss, acts, k);
      }
    }
  }

  lemma LoopPays(s: State, a: Action)
    requires Enabled(s, a) && !s.sigq.stopped
    ensures |s.handled| <= |Apply(s, a).handled| <= |s.handled| + 1
    ensures StepsToPop(Apply(s, a).loop) + (if a.Loop? then 1 else 0) <=
            StepsToPop(s.loop) + if |Apply(s, a).handled| > |s.handled| then 9 else 0
  {
    StepQueueEffect(s, a);
    if a.Loop? {
      LoopQueueEffect(s, a.underLock);
      LoopComesCloser(s, a.underLock);
    }
  }

  function PopRanks(ss: seq<State>): seq<nat> { seq(|ss|, i requires 0 <= i < |ss| => StepsToPop(ss[i].loop)) }

  function HandledCounts(ss: seq<State>): seq<nat> { seq(|ss|, i requires 0 <= i < |ss| => |ss[i].handled|) }

  lemma LoopPaysAt(ss: seq<State>, acts: seq<Action>, n: nat, i: nat)
    requires IsRun(ss, acts) && i < n <= |acts| && !ss[n].sigq.stopped
    ensures Pays(acts, TheLoop, PopRanks(ss), HandledCounts(ss), 9, i)
  {
    NotStoppedBefore(ss, acts, i, n);
    assert StepAt(ss, acts, i);
    LoopPays(ss[i], acts[i]);
  }

  lemma {:induction false} LoopAllPays(ss: seq<State>, acts: seq<Action>, n: nat, k: nat)
    requires IsRun(ss, acts) && k <= n <= |acts| && !ss[n].sigq.stopped
    ensures AllPay(acts, k, TheLoop, PopRanks(ss), HandledCounts(ss), 9)
  {
    if k > 0 {
      LoopAllPays(ss, acts, n, k - 1);
      LoopPaysAt(ss, acts, n, k - 1);
    }
  }

  lemma LoopWorks(ss: seq<State>, acts: seq<Action>, n: nat)
    requires |ss| == |acts| + 1 && n <= |acts|
    requires AllPay(acts, n, TheLoop, PopRanks(ss), HandledCounts(ss), 9)
    ensures StepsOf(acts, n, TheLoop) <= 9 * (|ss[n].handled| - |ss[0].handled| + 1)
  {
    KeepsWorking(acts, n, TheLoop, PopRanks(ss), HandledCounts(ss), 9);
  }

  /** While the signalling queue is not stopped, the loop handles a message at least every nine of its steps. */
  lemma LoopKeepsHandling(ss: seq<State>, acts: seq<Action>, n: nat)
    requires IsRun(ss, acts) && n <= |acts| && !ss[n].sigq.stopped
    ensures StepsOf(acts, n, TheLoop) <= 9 * (|ss[n].handled| - |ss[0].handled| + 1)
  {
    LoopAllPays(ss, acts, n, n);
    LoopWorks(ss, acts, n);
  }

  // ------------------------------------------------------------------ a client

  function StepsToApply(k: Client): nat {
    match k.pc
    case CDone => 0
    case CApply(_) => 1
    case CPop => 2
    case CCheck => 3
  }

  lemma ClientComesCloser(s: State, c: Inst)
    requires ClientEnabled(s, c) && !s.clients[c].inq.stopped
    ensures var k, k' := s.clients[c], ClientStep(s.clients[c]);
            |k'.applied| >= |k.applied|
            && StepsToApply(k') + 1 <= StepsToApply(k) + 3 * (|k'.applied| - |k.applied|)
  {
  }

  lemma LoopLeavesThread(s: State, underLock: bool, c: Inst)
    requires LoopInv(s) && LoopEnabled(s) && c in s.clients
    ensures var s' := LoopStep(s, underLock);
            c in s'.clients && s'.clients[c].pc == s.clients[c].pc && s'.clients[c].applied == s.clients[c].applied
  {
    if !s.loop.LSet? && !s.loop.LBuild? {
      LoopKeepsInput(s, underLock, c);
    }
  }

  lemma OthersLeaveThread(s: State, a: Action, c: Inst)
    requires LoopInv(s) && Enabled(s, a) && c in s.clients && a != ClientThread(c)
    ensures c in Apply(s, a).clients
    ensures var k, k' := s.clients[c], Apply(s, a).clients[c]; k'.pc == k.pc && k'.applied == k.applied
  {
    if a.Loop? {
      LoopLeavesThread(s, a.underLock, c);
    } else {
      StepInput(s, a, c);
    }
  }

  lemma OwnStep(s: State, c: Inst)
    requires Enabled(s, ClientThread(c))
    ensures c in s.clients && Apply(s, ClientThread(c)).clients == s.clients[c := ClientStep(s.clients[c])]
  {
  }

  lemma ClientStepComesCloser(s: State, a: Action, c: Inst)
    requires Inv(s) && Enabled(s, a) && c in s.clients && !s.clients[c].term
    ensures c in Apply(s, a).clients
    ensures var k, k' := s.clients[c], Apply(s, a).clients[c];
            |k'.applied| >= |k.applied|
            && StepsToApply(k') + (if a == ClientThread(c) then 1 else 0) <=
               StepsToApply(k) + 3 * (|k'.applied| - |k.applied|)
  {
    assert ClientOk(s, c);
    if a == ClientThread(c) {
      OwnStep(s, c);
      ClientComesCloser(s, c);
    } else {
      OthersLeaveThread(s, a, c);
    }
  }

  /** Until its destructor begins, a client's thread applies an answer at least every three of its steps. */
  lemma {:induction false} ClientKeepsApplying(ss: seq<State>, acts: seq<Action>, n: nat, c: Inst)
    requires IsRun(ss, acts) && Inv(ss[0]) && n <= |acts| && c in ss[0].clients
    requires forall i :: 0 <= i <= n && c in ss[i].clients ==> !ss[i].clients[c].term
    ensures c in ss[n].clients && |ss[n].clients[c].applied| >= |ss[0].clients[c].applied|
    ensures var k0, k := ss[0].clients[c], ss[n].clients[c];
            StepsOf(acts, n, TheClient(c)) + StepsToApply(k) <= StepsToApply(k0) + 3 * (|k.applied| - |k0.applied|)
    ensures StepsOf(acts, n, TheClient(c)) <= 3 * (|ss[n].clients[c].applied| - |ss[0].clients[c].applied| + 1)
  {
    if n > 0 {
      ClientKeepsApplying(ss, acts, n - 1, c);
      RunKeepsInv(ss, acts, n - 1);
      assert StepAt(ss, acts, n - 1);
      ClientStepComesCloser(ss[n-1], acts[n-1], c);
    }
  }

  // ---------------------------------------------------------- the media thread

  /** How many steps the media thread needs to complete a broadcast when no more than n clients exist. */
  function StepsToBroadcast(m: MediaPc, n: nat): nat {
    match m
    case MDone => 0
    case MVisit(_, todo) => 1 + |todo|
    case MAcquire(_) => 2 + n
    case MPop => 3 + n
    case MCheck => 4 + n
  }

  lemma RegisteredAreClients(s: State, n: nat)
    requires RegistryInv(s) && |s.clients.Keys| <= n
    ensures |s.registry.Values| <= n
  {
    forall c | c in s.registry.Values
      ensures c in s.clients.Keys
    {
      InRegistry(s, c);
    }
    SubsetSize(s.registry.Values, s.clients.Keys);
  }

  predicate EndsBroadcast(s: State, a: Action) { a.Media? && s.media.MVisit? && s.media.todo == {} }

  lemma MediaComesCloser(s: State, c: Inst, n: nat)
    requires MediaEnabled(s, c) && !s.framesq.stopped && |s.registry.Values| <= n
    ensures StepsToBroadcast(MediaStep(s, c).media, n) + 1 <=
            StepsToBroadcast(s.media, n) + if EndsBroadcast(s, Media(c)) then 4 + n else 0
  {
    if s.media.MVisit? && s.media.todo != {} {
      assert s.media.todo == (s.media.todo - {c}) + {c};
    }
  }

  lemma MediaCounts(s: State, c: Inst)
    requires MediaEnabled(s, c)
    ensures MediaStep(s, c).framesDone == s.framesDone + if EndsBroadcast(s, Media(c)) then 1 else 0
  {
  }

  lemma OthersLeaveMedia(s: State, a: Action)
    requires Enabled(s, a) && !a.Media?
    ensures Apply(s, a).media == s.media && Apply(s, a).framesDone == s.framesDone
  {
    if a.Loop? {
      LoopSameMedia(s, a.underLock);
    } else if a.Out? {
      OutUnconcerned(s, a.c, a.timeout);
    } else if a.Dtor? {
      DtorUnconcerned(s, a.id);
    } else if !a.PushData? {
      BystanderUnconcerned(s, a);
    }
  }

  lemma {:induction false} FlagWasClear(ss: seq<State>, acts: seq<Action>, k: nat, n: nat)
    requires IsRun(ss, acts) && k <= n <= |acts| && !ss[n].term
    ensures !ss[k].term
    decreases n - k
  {
    if k < n {
      FlagWasClear(ss, acts, k + 1, n);
      if ss[k].term {
        assert StepAt(ss, acts, k);
        TermStays(ss[k], acts[k]);
      }
    }
  }

  lemma FewerClientsBefore(ss: seq<State>, acts: seq<Action>, k: nat, n: nat)
    requires IsRun(ss, acts) && Inv(ss[0]) && k <= n <= |acts|
    ensures |ss[k].clients.Keys| <= |ss[n].clients.Keys|
  {
    ClientsGrow(ss, acts, k, n);
    SubsetSize(ss[k].clients.Keys, ss[n].clients.Keys);
  }

  lemma MediaPays(s: State, a: Action, clients: nat)
    requires Inv(s) && Enabled(s, a) && !s.term && |s.clients.Keys| <= clients
    ensures s.framesDone <= Apply(s, a).framesDone <= s.framesDone + 1
    ensures StepsToBroadcast(Apply(s, a).media, clients) + (if a.Media? then 1 else 0) <=
            StepsToBroadcast(s.media, clients) + if Apply(s, a).framesDone > s.framesDone then 4 + clients else 0
  {
    if a.Media? {
      RegisteredAreClients(s, clients);
      MediaComesCloser(s, a.c, clients);
      MediaCounts(s, a.c);
    } else {
      OthersLeaveMedia(s, a);
    }
  }

  lemma MediaIsNear(s: State, clients: nat)
    requires Inv(s) && |s.clients.Keys| <= clients
    ensures StepsToBroadcast(s.media, clients) <= 4 + clients
  {
    RegisteredAreClients(s, clients);
    if s.media.MVisit? {
      SubsetSize(s.media.todo, s.registry.Values);
    }
  }

  function BroadcastRanks(ss: seq<State>, clients: nat): seq<nat> {
    seq(|ss|, i requires 0 <= i < |ss| => StepsToBroadcast(ss[i].media, clients))
  }

  function DoneCounts(ss: seq<State>): seq<nat> { seq(|ss|, i requires 0 <= i < |ss| => ss[i].framesDone) }

  lemma MediaPaysAt(ss: seq<State>, acts: seq<Action>, n: nat, clients: nat, i: nat)
    requires IsRun(ss, acts) && Inv(ss[0]) && i < n <= |acts| && !ss[n].term && |ss[n].clients.Keys| <= clients
    ensures Pays(acts, TheMedia, BroadcastRanks(ss, clients), DoneCounts(ss), 4 + clients, i)
  {
    FlagWasClear(ss, acts, i, n);
    FewerClientsBefore(ss, acts, i, n);
    RunKeepsInv(ss, acts, i);
    assert StepAt(ss, acts, i);
    MediaPays(ss[i], acts[i], clients);
  }

  lemma {:induction false} MediaAllPays(ss: seq<State>, acts: seq<Action>, n: nat, clients: nat, k: nat)
    requires IsRun(ss, acts) && Inv(ss[0]) && k <= n <= |acts| && !ss[n].term && |ss[n].clients.Keys| <= clients
    ensures AllPay(acts, k, TheMedia, BroadcastRanks(ss, clients), DoneCounts(ss), 4 + clients)
  {
    if k > 0 {
      MediaAllPays(ss, acts, n, clients, k - 1);
      MediaPaysAt(ss, acts, n, clients, k - 1);
    }
  }

  lemma MediaWorks(ss: seq<State>, acts: seq<Action>, n: nat, clients: nat)
    requires |ss| == |acts| + 1 && n <= |acts| && StepsToBroadcast(ss[0].media, clients) <= 4 + clients
    requires AllPay(acts, n, TheMedia, BroadcastRanks(ss, clients), DoneCounts(ss), 4 + clients)
    ensures StepsOf(acts, n, TheMedia) <= (4 + clients) * (ss[n].framesDone - ss[0].framesDone + 1)
  {
    KeepsWorking(acts, n, TheMedia, BroadcastRanks(ss, clients), DoneCounts(ss), 4 + clients);
  }

  /**
   Until the destructor begins the media thread completes a broadcast at least every
   4 + clients of its steps, where clients bounds the clients built so far.
   */
  lemma MediaKeepsBroadcasting(ss: seq<State>, acts: seq<Action>, n: nat, clients: nat)
    requires IsRun(ss, acts) && Inv(ss[0]) && n <= |acts| && !ss[n].term && |ss[n].clients.Keys| <= clients
    ensures StepsOf(acts, n, TheMedia) <= (4 + clients) * (ss[n].framesDone - ss[0].framesDone + 1)
  {
    MediaAllPays(ss, acts, n, clients, n);
    FewerClientsBefore(ss, acts, 0, n);
    MediaIsNear(ss[0], clients);
    MediaWorks(ss, acts, n, clients);
  }

  // --------------------------------------------------------- the output thread

  /** How many steps the output thread needs to complete a pass when no more than n clients exist. */
  function StepsToPass(o: OutPc, n: nat): nat {
    match o
    case ODone => 0
    case OVisit(todo) => 1 + 3 * |todo|
    case OPush(todo, _) => 2 + 3 * |todo|
    case OTake(todo, _) => 3 + 3 * |todo|
    case OAcquire => 2 + 3 * n
    case OCheck => 3 + 3 * n
  }

  predicate EndsPass(s: State, a: Action) { a.Out? && s.out == OVisit({}) }

  /** How many passes over the registry were completed in the first n steps. */
  function Passes(ss: seq<State>, acts: seq<Action>, n: nat): nat
    requires n <= |acts| && |ss| == |acts| + 1
  {
    if n == 0 then 0 else Passes(ss, acts, n - 1) + if EndsPass(ss[n-1], acts[n-1]) then 1 else 0
  }

  lemma OutComesCloser(s: State, c: Inst, timeout: bool, n: nat)
    requires OutEnabled(s, c, timeout) && |s.registry.Values| <= n
    ensures StepsToPass(OutStep(s, c, timeout).out, n) + 1 <=
            StepsToPass(s.out, n) + if s.out == OVisit({}) then 3 + 3 * n else 0
  {
    if s.out.OVisit? && s.out.todo != {} {
      assert s.out.todo == (s.out.todo - {c}) + {c};
      assert |s.out.todo - {c}| == |s.out.todo| - 1;
    }
  }

  lemma OutPays(s: State, a: Action, clients: nat)
    requires Inv(s) && Enabled(s, a) && |s.clients.Keys| <= clients
    ensures StepsToPass(Apply(s, a).out, clients) + (if a.Out? then 1 else 0) <=
            StepsToPass(s.out, clients) + if EndsPass(s, a) then 3 + 3 * clients else 0
  {
    if a.Out? {
      RegisteredAreClients(s, clients);
      OutComesCloser(s, a.c, a.timeout, clients);
    } else {
      StepQueueEffect(s, a);
    }
  }

  lemma OutIsNear(s: State, clients: nat)
    requires Inv(s) && |s.clients.Keys| <= clients
    ensures StepsToPass(s.out, clients) <= 3 + 3 * clients
  {
    RegisteredAreClients(s, clients);
    if s.out.OVisit? {
      SubsetSize(s.out.todo, s.registry.Values);
    } else if s.out.OTake? {
      SubsetSize(s.out.todo + {s.out.c}, s.registry.Values);
    } else if s.out.OPush? {
      SubsetSize(s.out.todo + {s.out.m.origin.inst}, s.registry.Values);
    }
  }

  function PassRanks(ss: seq<State>, clients: nat): seq<nat> {
    seq(|ss|, i requires 0 <= i < |ss| => StepsToPass(ss[i].out, clients))
  }

  function PassCounts(ss: seq<State>, acts: seq<Action>): seq<nat>
    requires |ss| == |acts| + 1
  {
    seq(|ss|, i requires 0 <= i < |ss| => Passes(ss, acts, i))
  }

  lemma OutRunStep(ss: seq<State>, acts: seq<Action>, n: nat, clients: nat, i: nat)
    requires IsRun(ss, acts) && Inv(ss[0]) && i < n <= |acts| && |ss[n].clients.Keys| <= clients
    ensures StepsToPass(ss[i+1].out, clients) + (if acts[i].Out? then 1 else 0) <=
            StepsToPass(ss[i].out, clients) + if EndsPass(ss[i], acts[i]) then 3 + 3 * clients else 0
  {
    FewerClientsBefore(ss, acts, i, n);
    RunKeepsInv(ss, acts, i);
    assert StepAt(ss, acts, i);
    OutPays(ss[i], acts[i], clients);
  }

  lemma PaysForPass(ss: seq<State>, acts: seq<Action>, clients: nat, i: nat)
    requires |ss| == |acts| + 1 && i < |acts|
    requires StepsToPass(ss[i+1].out, clients) + (if acts[i].Out? then 1 else 0) <=
             StepsToPass(ss[i].out, clients) + if EndsPass(ss[i], acts[i]) then 3 + 3 * clients else 0
    ensures Pays(acts, TheOutput, PassRanks(ss, clients), PassCounts(ss, acts), 3 + 3 * clients, i)
  {
    assert PassCounts(ss, acts)[i+1] == PassCounts(ss, acts)[i] + if EndsPass(ss[i], acts[i]) then 1 else 0;
  }

  lemma {:induction false} OutAllPays(ss: seq<State>, acts: seq<Action>, n: nat, clients: nat, k: nat)
    requires IsRun(ss, acts) && Inv(ss[0]) && k <= n <= |acts| && |ss[n].clients.Keys| <= clients
    ensures AllPay(acts, k, TheOutput, PassRanks(ss, clients), PassCounts(ss, acts), 3 + 3 * clients)
  {
    if k > 0 {
      OutAllPays(ss, acts, n, clients, k - 1);
      OutRunStep(ss, acts, n, clients, k - 1);
      PaysForPass(ss, acts, clients, k - 1);
    }
  }

  lemma OutputWorks(ss: seq<State>, acts: seq<Action>, n: nat, clients: nat)
    requires |ss| == |acts| + 1 && n <= |acts| && StepsToPass(ss[0].out, clients) <= 3 + 3 * clients
    requires AllPay(acts, n, TheOutput, PassRanks(ss, clients), PassCounts(ss, acts), 3 + 3 * clients)
    ensures StepsOf(acts, n, TheOutput) <= (3 + 3 * clients) * (Passes(ss, acts, n) + 1)
  {
    KeepsWorking(acts, n, TheOutput, PassRanks(ss, clients), PassCounts(ss, acts), 3 + 3 * clients);
  }

  /** The output thread completes a pass at least every 3 + 3 * clients of its steps. */
  lemma OutputKeepsPassing(ss: seq<State>, acts: seq<Action>, n: nat, clients: nat)
    requires IsRun(ss, acts) && Inv(ss[0]) && n <= |acts| && |ss[n].clients.Keys| <= clients
    ensures StepsOf(acts, n, TheOutput) <= (3 + 3 * clients) * (Passes(ss, acts, n) + 1)
  {
    OutAllPays(ss, acts, n, clients, n);
    FewerClientsBefore(ss, acts, 0, n);
    OutIsNear(ss[0], clients);
    OutputWorks(ss, acts, n, clients);
  }

  // ---------------------------------------------- what a pass does for a client

  /** The messages of c that have left it for the signalling queue, or gone through it. */
  function Forwarded(s: State, c: Inst): seq<Msg> { From(s.handled + s.sigq.items, c) }

  /**
   In a pass: m, the oldest message of c when the pass began, is still that, or is in
   the output thread's hand, or was forwarded; `before` is what was forwarded before it.
   */
  ghost predicate InPass(s: State, c: Inst, m: Msg, before: seq<Msg>) {
    && c in s.clients && OutReads(s)
    && if c in s.out.todo || (s.out.OTake? && s.out.c == c)
       then s.clients[c].outq.items != [] && s.clients[c].outq.items[0] == m && Forwarded(s, c) == before
       else Forwarded(s, c) + InHand(s, c) == before + [m]
  }

  lemma OthersLeaveOutput(s: State, a: Action, c: Inst)
    requires LoopInv(s) && Enabled(s, a) && !a.Out? && c in s.clients && s.clients[c].outq.items != []
    ensures c in Apply(s, a).clients
    ensures var items, items' := s.clients[c].outq.items, Apply(s, a).clients[c].outq.items;
            items' != [] && items'[0] == items[0]
  {
    if a.Loop? {
      LoopKeepsOutput(s, a.underLock, c);
    } else if !a.Callback? {
      QuietKeepsOutput(s, a, c);
    }
  }

  lemma OthersForwardNothing(s: State, a: Action, c: Inst)
    requires TagsInv(s) && Enabled(s, a) && !a.Out?
    ensures Apply(s, a).out == s.out && Forwarded(Apply(s, a), c) == Forwarded(s, c)
  {
    StepQueueEffect(s, a);
    if a.Loop? {
      LoopKeepsFlow(s, a.underLock);
    } else if a.WsPush? && s.ws.Some? {
      PushKeepsConserved(s, s.ws.value, c);
    }
  }

  lemma OthersKeepPass(s: State, a: Action, c: Inst, m: Msg, before: seq<Msg>)
    requires Inv(s) && TagsInv(s) && Enabled(s, a) && !a.Out? && InPass(s, c, m, before)
    ensures InPass(Apply(s, a), c, m, before)
  {
    StepNames(s, a);
    OthersForwardNothing(s, a, c);
    if s.clients[c].outq.items != [] {
      OthersLeaveOutput(s, a, c);
    }
  }

  lemma VisitKeepsPass(s: State, o: Inst, timeout: bool, c: Inst, m: Msg, before: seq<Msg>)
    requires s.out.OVisit? && OutEnabled(s, o, timeout) && InPass(s, c, m, before)
    ensures var s' := OutStep(s, o, timeout);
            if s.out.todo == {} then s'.out == OCheck && Forwarded(s', c) == before + [m]
            else InPass(s', c, m, before)
  {
  }

  lemma TakeKeepsPass(s: State, o: Inst, timeout: bool, c: Inst, m: Msg, before: seq<Msg>)
    requires Inv(s) && s.out.OTake? && OutEnabled(s, o, timeout) && InPass(s, c, m, before)
    ensures InPass(OutStep(s, o, timeout), c, m, before)
  {
    var d := s.out.c;
    InRegistry(s, d);
    assert ClientOk(s, d);
    var items := s.clients[d].outq.items;
    assert items != [] ==> MadeBy(items[0], s.clients[d], d);
    TakeEffect(s, o, timeout);
  }

  lemma PushKeepsPass(s: State, o: Inst, timeout: bool, c: Inst, m: Msg, before: seq<Msg>)
    requires TraverseInv(s) && s.out.OPush? && !s.sigq.stopped && OutEnabled(s, o, timeout)
    requires InPass(s, c, m, before)
    ensures InPass(OutStep(s, o, timeout), c, m, before)
  {
    HandOverEffect(s, o, timeout);
    PushKeepsConserved(s, s.out.m, c);
  }

  lemma StepKeepsPass(s: State, a: Action, c: Inst, m: Msg, before: seq<Msg>)
    requires Inv(s) && TagsInv(s) && Enabled(s, a) && !s.sigq.stopped && InPass(s, c, m, before)
    ensures var s' := Apply(s, a);
            if EndsPass(s, a) then s'.out == OCheck && Forwarded(s', c) == before + [m]
            else InPass(s', c, m, before)
  {
    if !a.Out? {
      OthersKeepPass(s, a, c, m, before);
    } else if s.out.OVisit? {
      VisitKeepsPass(s, a.c, a.timeout, c, m, before);
    } else if s.out.OTake? {
      TakeKeepsPass(s, a.c, a.timeout, c, m, before);
    } else {
      PushKeepsPass(s, a.c, a.timeout, c, m, before);
    }
  }

  /** A pass begins: the output thread takes the lock while c is registered and has something to send. */
  lemma PassBegins(s: State, a: Action, c: Inst)
    requires s.out.OAcquire? && a.Out? && Enabled(s, a) && Registered(s, c) && s.clients[c].outq.items != []
    ensures InPass(Apply(s, a), c, s.clients[c].outq.items[0], Forwarded(s, c))
  {
  }

  /** Step k carries the pass on, or completes it. */
  ghost predicate CarriesOn(ss: seq<State>, acts: seq<Action>, k: nat, c: Inst, m: Msg, before: seq<Msg>)
    requires k < |acts| && |ss| == |acts| + 1
  {
    InPass(ss[k], c, m, before) ==>
      if EndsPass(ss[k], acts[k]) then Forwarded(ss[k+1], c) == before + [m] else InPass(ss[k+1], c, m, before)
  }

  lemma PassStep(ss: seq<State>, acts: seq<Action>, k: nat, j: nat, c: Inst, m: Msg, before: seq<Msg>)
    requires IsRun(ss, acts) && Init(ss[0]) && k <= j < |acts| && !ss[j+1].sigq.stopped
    ensures CarriesOn(ss, acts, k, c, m, before)
  {
    NotStoppedBefore(ss, acts, k, j + 1);
    InitInv(ss[0]);
    RunKeepsMessages(ss, acts, k);
    if InPass(ss[k], c, m, before) {
      assert StepAt(ss, acts, k);
      StepKeepsPass(ss[k], acts[k], c, m, before);
    }
  }

  /** Step j is the first after step i to complete a pass. */
  ghost predicate FirstEnd(ss: seq<State>, acts: seq<Action>, i: nat, j: nat)
    requires i < j < |acts| && |ss| == |acts| + 1
  {
    EndsPass(ss[j], acts[j]) && forall k :: i < k < j ==> !EndsPass(ss[k], acts[k])
  }

  lemma {:induction false} PassGoesOn(
      ss: seq<State>, acts: seq<Action>, i: nat, n: nat, j: nat, c: Inst, m: Msg, before: seq<Msg>)
    requires |ss| == |acts| + 1 && i < n <= j < |acts| && FirstEnd(ss, acts, i, j)
    requires forall k :: i < k <= j ==> CarriesOn(ss, acts, k, c, m, before)
    requires InPass(ss[i+1], c, m, before)
    ensures InPass(ss[n], c, m, before)
  {
    if i + 1 < n {
      PassGoesOn(ss, acts, i, n - 1, j, c, m, before);
      assert CarriesOn(ss, acts, n - 1, c, m, before);
    }
  }

  /**
   A pass over the registry forwards, for every client that is registered when it
   begins and has something to send, exactly the oldest of its messages.
   */
  lemma PassForwardsOne(ss: seq<State>, acts: seq<Action>, i: nat, j: nat, c: Inst)
    requires IsRun(ss, acts) && Init(ss[0]) && i < j < |acts| && !ss[j+1].sigq.stopped
    requires ss[i].out.OAcquire? && acts[i].Out? && FirstEnd(ss, acts, i, j)
    requires Registered(ss[i], c) && ss[i].clients[c].outq.items != []
    ensures Forwarded(ss[j+1], c) == Forwarded(ss[i], c) + [ss[i].clients[c].outq.items[0]]
  {
    var m, before := ss[i].clients[c].outq.items[0], Forwarded(ss[i], c);
    assert StepAt(ss, acts, i);
    PassBegins(ss[i], acts[i], c);
    forall k | i < k <= j
      ensures CarriesOn(ss, acts, k, c, m, before)
    {
      PassStep(ss, acts, k, j, c, m, before);
    }
    PassGoesOn(ss, acts, i, j, j, c, m, before);
    assert CarriesOn(ss, acts, j, c, m, before);
  }
}
