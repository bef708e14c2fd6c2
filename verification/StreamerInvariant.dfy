/** What every reachable state of the streamer satisfies: who holds which client, and which thread is where. */
module StreamerInvariant {
  import opened BoundedFifo
  import opened StreamerModel

  /** A client nobody has begun to destroy. */
  predicate Intact(k: Client) {
    !k.term && !k.gone && !k.inq.stopped && !k.outq.stopped
  }

  /** A client whose destructor has completed `stage` statements. */
  predicate DestroyedUpTo(k: Client, stage: nat) {
    && stage <= JOIN_STAGE && !k.gone
    && (k.term <==> stage > 0) && (k.inq.stopped <==> stage > 1) && (k.outq.stopped <==> stage > 2)
  }

  predicate Registered(s: State, c: Inst) {
    c in s.clients && s.clients[c].id in s.registry && s.registry[s.clients[c].id] == c
  }

  ghost predicate EntryOk(s: State, id: Id) {
    id in s.registry ==>
      s.registry[id] in s.clients && s.clients[s.registry[id]].id == id && Intact(s.clients[s.registry[id]])
  }

  ghost predicate RegistryInv(s: State) {
    forall id {:trigger EntryOk(s, id)} :: EntryOk(s, id)
  }

  predicate LoopDestroys(s: State, c: Inst) { s.loop.LDestroy? && s.loop.c == c }

  predicate DtorDestroys(s: State, c: Inst) { s.dtor.XDestroy? && s.dtor.c == c }

  ghost predicate LoopInv(s: State) {
    match s.loop
    case LBuild(m, c) =>
      c + 1 == |s.handled| && c !in s.clients && m == s.handled[c] && m.mode.Input? && m.kind.Request?
    case LEmplace(m, c) =>
      && c + 1 == |s.handled| && m == s.handled[c] && m.mode.Input? && m.kind.Request?
      && c in s.clients && s.clients[c].id == m.id && Intact(s.clients[c]) && !Registered(s, c)
    case LGet(m) => s.handled != [] && m == s.handled[|s.handled|-1] && m.mode.Input? && m.kind.Answer?
    case LSet(m, c) =>
      && s.handled != [] && m == s.handled[|s.handled|-1] && m.mode.Input? && m.kind.Answer?
      && m.id in s.registry && s.registry[m.id] == c
    case LErase(m) => s.handled != [] && m == s.handled[|s.handled|-1] && m.mode.Output? && m.kind.Disconnect?
    case LSend(m) => s.handled != [] && m == s.handled[|s.handled|-1] && m.mode.Output? && !m.kind.Disconnect?
    case LDestroy(c, stage, locked) =>
      && c in s.clients && !Registered(s, c) && DestroyedUpTo(s.clients[c], stage)
      && (locked ==> !OutReads(s) && !MediaReads(s))
    case _ => true
  }

  ghost predicate TraverseInv(s: State) {
    && (match s.out
        case OVisit(todo) => todo <= s.registry.Values
        case OTake(todo, c) => todo <= s.registry.Values && c in s.registry.Values && c !in todo
        case OPush(todo, m) =>
          todo <= s.registry.Values && m.origin.Made? && m.origin.inst in s.registry.Values && m.origin.inst !in todo
        case _ => true)
    && (match s.media
        case MVisit(_, todo) => todo <= s.registry.Values
        case _ => true)
  }

  predicate PastSignalingStop(d: DtorPc) { !d.XIdle? && !d.XStopSignaling? }

  predicate PastLoopJoin(d: DtorPc) {
    d.XStopFrames? || d.XJoinMedia? || d.XRelease? || d.XDestroy? || d.XDone?
  }

  predicate PastFramesStop(d: DtorPc) { d.XJoinMedia? || d.XRelease? || d.XDestroy? || d.XDone? }

  predicate PastMediaJoin(d: DtorPc) { d.XRelease? || d.XDestroy? || d.XDone? }

  ghost predicate ShutdownInv(s: State) {
    && (s.term <==> !s.dtor.XIdle?)
    && (s.sigq.stopped <==> PastSignalingStop(s.dtor))
    && (s.framesq.stopped <==> PastFramesStop(s.dtor))
    && (PastLoopJoin(s.dtor) ==> s.loop.LDone?)
    && (PastMediaJoin(s.dtor) ==> s.media.MDone?)
    && (s.loop.LDone? ==> s.out.ODone?)
    && (s.loop.LJoin? || s.loop.LDone? || s.out.ODone? || s.media.MDone? ==> s.term)
    && (s.dtor.XDestroy? ==>
          var c := s.dtor.c;
          c in s.clients && !Registered(s, c) && DestroyedUpTo(s.clients[c], s.dtor.stage))
    && (s.dtor.XDone? ==> s.registry == map[])
  }

  /** m is what a callback of instance c makes. */
  predicate MadeBy(m: Msg, k: Client, c: Inst) {
    m.mode.Output? && m.id == k.id && m.origin == Made(c)
  }

  ghost predicate ClientOk(s: State, c: Inst)
    requires c in s.clients
  {
    var k := s.clients[c];
    && c < |s.handled|
    && s.handled[c].id == k.id && s.handled[c].mode.Input? && s.handled[c].kind.Request?
    && (k.pc.CDone? ==> k.term)
    && (k.inq.stopped || k.outq.stopped ==> k.term)
    && (k.gone ==> k.pc.CDone?)
    && k.inq.cap == CLIENT_CAPACITY && |k.inq.items| <= CLIENT_CAPACITY
    && k.outq.cap == CLIENT_CAPACITY && |k.outq.items| <= CLIENT_CAPACITY
    && (forall i :: 0 <= i < |k.outq.items| ==> MadeBy(k.outq.items[i], k, c))
    && (k.gone || Registered(s, c) || LoopDestroys(s, c) || DtorDestroys(s, c)
        || (s.loop.LEmplace? && s.loop.c == c))
  }

  ghost predicate ClientsInv(s: State) {
    forall c {:trigger ClientOk(s, c)} :: c in s.clients ==> ClientOk(s, c)
  }

  ghost predicate BoundsInv(s: State) {
    && s.sigq.cap == SIGNALING_CAPACITY && |s.sigq.items| <= SIGNALING_CAPACITY
    && s.framesq.cap == FRAMES_CAPACITY && |s.framesq.items| <= FRAMES_CAPACITY
  }

  ghost predicate Inv(s: State) {
    RegistryInv(s) && LoopInv(s) && TraverseInv(s) && ShutdownInv(s) && ClientsInv(s) && BoundsInv(s)
  }

  predicate SameLife(k: Client, k': Client) {
    && k'.id == k.id && k'.term == k.term && k'.gone == k.gone
    && k'.inq.stopped == k.inq.stopped && k'.outq.stopped == k.outq.stopped
  }

  /** s' differs from s only in what a thread that neither builds nor destroys clients can change. */
  predicate SameLives(s: State, s': State) {
    && s'.registry == s.registry && s'.handled == s.handled && s'.loop == s.loop
    && s'.clients.Keys == s.clients.Keys
    && forall c :: c in s.clients ==> SameLife(s.clients[c], s'.clients[c])
  }

  lemma SameLivesKeepLoop(s: State, s': State)
    requires LoopInv(s) && SameLives(s, s')
    requires Writing(s) ==> !OutReads(s') && !MediaReads(s')
    ensures LoopInv(s')
  {
  }

  lemma InitInv(s: State)
    requires Init(s)
    ensures Inv(s)
  {
  }

  lemma LoopKeepsRegistry(s: State, underLock: bool)
    requires RegistryInv(s) && LoopInv(s) && LoopEnabled(s)
    ensures RegistryInv(LoopStep(s, underLock))
  {
    var s' := LoopStep(s, underLock);
    forall i: Id
      ensures EntryOk(s', i)
    {
      assert EntryOk(s, i);
    }
  }

  lemma PopKeepsLoop(s: State, underLock: bool)
    requires LoopEnabled(s) && s.loop.LPop? && ClientsInv(s)
    ensures LoopInv(LoopStep(s, underLock))
  {
    assert |s.handled| in s.clients ==> ClientOk(s, |s.handled|);
  }

  lemma BuildKeepsLoop(s: State, underLock: bool)
    requires LoopEnabled(s) && s.loop.LBuild? && LoopInv(s) && RegistryInv(s)
    ensures LoopInv(LoopStep(s, underLock))
  {
    assert EntryOk(s, s.loop.m.id);
  }

  lemma EraseKeepsLoop(s: State, underLock: bool)
    requires LoopEnabled(s) && s.loop.LErase? && LoopInv(s) && RegistryInv(s)
    ensures LoopInv(LoopStep(s, underLock))
  {
    assert EntryOk(s, s.loop.m.id);
  }

  lemma DestroyKeepsLoop(s: State, underLock: bool)
    requires LoopEnabled(s) && s.loop.LDestroy? && LoopInv(s)
    ensures LoopInv(LoopStep(s, underLock))
  {
  }

  lemma LoopKeepsLoop(s: State, underLock: bool)
    requires RegistryInv(s) && LoopInv(s) && ClientsInv(s) && LoopEnabled(s)
    ensures LoopInv(LoopStep(s, underLock))
  {
    match s.loop
    case LPop => PopKeepsLoop(s, underLock);
    case LBuild(_, _) => BuildKeepsLoop(s, underLock);
    case LErase(_) => EraseKeepsLoop(s, underLock);
    case LDestroy(_, _, _) => DestroyKeepsLoop(s, underLock);
    case _ =>
  }

  lemma LoopKeepsTraverse(s: State, underLock: bool)
    requires TraverseInv(s) && LoopEnabled(s)
    ensures TraverseInv(LoopStep(s, underLock))
  {
  }

  /** Between two messages, or at the end; otherwise the loop is in one of its handlers. */
  predicate Polls(l: LoopPc) { l.LCheck? || l.LPop? || l.LJoin? || l.LDone? }

  /** What the loop must leave alone while it runs: the flag, the stops and the other threads. */
  predicate SameOutside(s: State, s': State) {
    && s'.term == s.term && s'.dtor == s.dtor && s'.out == s.out && s'.media == s.media
    && s'.sigq.stopped == s.sigq.stopped && s'.framesq.stopped == s.framesq.stopped
  }

  lemma PollFrame(s: State, underLock: bool)
    requires LoopEnabled(s) && Polls(s.loop)
    ensures var s' := LoopStep(s, underLock);
            && SameOutside(s, s') && !s.loop.LDone?
            && (s'.loop.LJoin? ==> s.term) && (s'.loop.LDone? ==> s.loop.LJoin? && s.out.ODone?)
  {
  }

  lemma RegisterFrame(s: State, underLock: bool)
    requires LoopEnabled(s) && (s.loop.LBuild? || s.loop.LEmplace? || s.loop.LErase?)
    ensures var s' := LoopStep(s, underLock); SameOutside(s, s') && !s'.loop.LJoin? && !s'.loop.LDone?
  {
  }

  lemma HandlerFrame(s: State, underLock: bool)
    requires LoopEnabled(s) && !Polls(s.loop) && !s.loop.LBuild? && !s.loop.LEmplace? && !s.loop.LErase?
    ensures var s' := LoopStep(s, underLock); SameOutside(s, s') && !s'.loop.LJoin? && !s'.loop.LDone?
  {
  }

  lemma LoopKeepsShutdown(s: State, underLock: bool)
    requires ShutdownInv(s) && LoopInv(s) && LoopEnabled(s)
    ensures ShutdownInv(LoopStep(s, underLock))
  {
    if Polls(s.loop) {
      PollFrame(s, underLock);
    } else if s.loop.LBuild? || s.loop.LEmplace? || s.loop.LErase? {
      RegisterFrame(s, underLock);
    } else {
      HandlerFrame(s, underLock);
    }
  }

  lemma PopKeepsClients(s: State, underLock: bool, k: Inst)
    requires LoopEnabled(s) && s.loop.LPop? && k in s.clients && ClientOk(s, k)
    ensures ClientOk(LoopStep(s, underLock), k)
  {
  }

  lemma EmplaceKeepsClients(s: State, underLock: bool, k: Inst)
    requires LoopEnabled(s) && s.loop.LEmplace? && LoopInv(s) && k in s.clients && ClientOk(s, k)
    ensures ClientOk(LoopStep(s, underLock), k)
  {
  }

  lemma EraseKeepsClients(s: State, underLock: bool, k: Inst)
    requires LoopEnabled(s) && s.loop.LErase? && k in s.clients && ClientOk(s, k)
    ensures ClientOk(LoopStep(s, underLock), k)
  {
  }

  lemma DestroyKeepsClients(s: State, underLock: bool, k: Inst)
    requires LoopEnabled(s) && s.loop.LDestroy? && LoopInv(s) && k in s.clients && ClientOk(s, k)
    ensures ClientOk(LoopStep(s, underLock), k)
  {
  }

  lemma BuildKeepsClients(s: State, underLock: bool, k: Inst)
    requires LoopEnabled(s) && s.loop.LBuild? && LoopInv(s) && k in LoopStep(s, underLock).clients
    requires k in s.clients ==> ClientOk(s, k)
    ensures ClientOk(LoopStep(s, underLock), k)
  {
  }

  lemma SetKeepsClients(s: State, underLock: bool, k: Inst)
    requires LoopEnabled(s) && s.loop.LSet? && k in s.clients && ClientOk(s, k)
    ensures ClientOk(LoopStep(s, underLock), k)
  {
    var k0, k' := s.clients[k], LoopStep(s, underLock).clients[k];
    assert k'.outq == k0.outq && k'.id == k0.id;
  }

  lemma RestKeepsClients(s: State, underLock: bool, k: Inst)
    requires LoopEnabled(s) && (s.loop.LCheck? || s.loop.LGet? || s.loop.LSend? || s.loop.LJoin?)
    requires k in s.clients && ClientOk(s, k)
    ensures k in LoopStep(s, underLock).clients && ClientOk(LoopStep(s, underLock), k)
  {
    assert Registered(LoopStep(s, underLock), k) == Registered(s, k);
  }

  lemma LoopKeepsClients(s: State, underLock: bool)
    requires LoopInv(s) && ClientsInv(s) && LoopEnabled(s)
    ensures ClientsInv(LoopStep(s, underLock))
  {
    var s' := LoopStep(s, underLock);
    forall k | k in s'.clients
      ensures ClientOk(s', k)
    {
      assert k in s.clients ==> ClientOk(s, k);
      if s.loop.LPop? {
        PopKeepsClients(s, underLock, k);
      } else if s.loop.LBuild? {
        BuildKeepsClients(s, underLock, k);
      } else if s.loop.LEmplace? {
        EmplaceKeepsClients(s, underLock, k);
      } else if s.loop.LSet? {
        SetKeepsClients(s, underLock, k);
      } else if s.loop.LErase? {
        EraseKeepsClients(s, underLock, k);
      } else if s.loop.LDestroy? {
        DestroyKeepsClients(s, underLock, k);
      } else {
        RestKeepsClients(s, underLock, k);
      }
    }
  }

  lemma LoopKeepsBounds(s: State, underLock: bool)
    requires BoundsInv(s) && LoopEnabled(s)
    ensures BoundsInv(LoopStep(s, underLock))
  {
  }

  lemma LoopKeepsInv(s: State, underLock: bool)
    requires Inv(s) && LoopEnabled(s)
    ensures Inv(LoopStep(s, underLock))
  {
    LoopKeepsRegistry(s, underLock);
    LoopKeepsLoop(s, underLock);
    LoopKeepsTraverse(s, underLock);
    LoopKeepsShutdown(s, underLock);
    LoopKeepsClients(s, underLock);
    LoopKeepsBounds(s, underLock);
  }

  lemma OutKeepsRegistry(s: State, c: Inst, timeout: bool)
    requires RegistryInv(s) && OutEnabled(s, c, timeout)
    ensures RegistryInv(OutStep(s, c, timeout))
  {
    var s' := OutStep(s, c, timeout);
    forall i: Id
      ensures EntryOk(s', i)
    {
      assert EntryOk(s, i);
    }
  }

  lemma OutKeepsLoop(s: State, c: Inst, timeout: bool)
    requires LoopInv(s) && OutEnabled(s, c, timeout)
    ensures LoopInv(OutStep(s, c, timeout))
  {
    var s' := OutStep(s, c, timeout);
    assert s.out.OTake? && s.clients[s.out.c].outq.items != [] ==>
      s'.clients == s.clients[s.out.c := s.clients[s.out.c].(outq := AfterPop(s.clients[s.out.c].outq))];
    SameLivesKeepLoop(s, s');
  }

  lemma OutKeepsTraverse(s: State, c: Inst, timeout: bool)
    requires TraverseInv(s) && RegistryInv(s) && ClientsInv(s) && OutEnabled(s, c, timeout)
    ensures TraverseInv(OutStep(s, c, timeout))
  {
    if s.out.OTake? {
      var k := s.out.c;
      var id :| id in s.registry && s.registry[id] == k;
      assert EntryOk(s, id);
      assert ClientOk(s, k);
      var items := s.clients[k].outq.items;
      assert items != [] ==> MadeBy(items[0], s.clients[k], k);
    }
  }

  lemma OutKeepsShutdown(s: State, c: Inst, timeout: bool)
    requires ShutdownInv(s) && OutEnabled(s, c, timeout)
    ensures ShutdownInv(OutStep(s, c, timeout))
  {
  }

  /** A client that a step does not touch. */
  lemma UntouchedStaysOk(s: State, s': State, k: Inst)
    requires k in s.clients && k in s'.clients && s'.clients[k] == s.clients[k] && ClientOk(s, k)
    requires s'.handled == s.handled && s'.loop == s.loop && s'.dtor == s.dtor && s'.registry == s.registry
    ensures ClientOk(s', k)
  {
    assert Registered(s', k) == Registered(s, k);
  }

  lemma PoppedStaysOk(s: State, s': State, k: Inst)
    requires k in s.clients && ClientOk(s, k)
    requires s'.clients == s.clients[k := s.clients[k].(outq := AfterPop(s.clients[k].outq))]
    requires s'.handled == s.handled && s'.loop == s.loop && s'.dtor == s.dtor && s'.registry == s.registry
    ensures ClientOk(s', k)
  {
    assert Registered(s', k) == Registered(s, k);
  }

  lemma TakeEffect(s: State, c: Inst, timeout: bool)
    requires OutEnabled(s, c, timeout) && s.out.OTake?
    ensures var s', o := OutStep(s, c, timeout), s.out.c;
            && s'.clients == s.clients[o := s.clients[o].(outq := AfterPop(s.clients[o].outq))]
            && s'.handled == s.handled && s'.loop == s.loop && s'.dtor == s.dtor && s'.registry == s.registry
  {
  }

  lemma TakeKeepsClients(s: State, c: Inst, timeout: bool, k: Inst)
    requires OutEnabled(s, c, timeout) && s.out.OTake? && k in s.clients && ClientOk(s, k)
    ensures ClientOk(OutStep(s, c, timeout), k)
  {
    TakeEffect(s, c, timeout);
    if k == s.out.c {
      PoppedStaysOk(s, OutStep(s, c, timeout), k);
    } else {
      UntouchedStaysOk(s, OutStep(s, c, timeout), k);
    }
  }

  lemma OutKeepsClients(s: State, c: Inst, timeout: bool)
    requires ClientsInv(s) && OutEnabled(s, c, timeout)
    ensures ClientsInv(OutStep(s, c, timeout))
  {
    var s' := OutStep(s, c, timeout);
    forall k | k in s'.clients
      ensures ClientOk(s', k)
    {
      assert ClientOk(s, k);
      if s.out.OTake? {
        TakeKeepsClients(s, c, timeout, k);
      } else {
        assert s'.clients == s.clients && Registered(s', k) == Registered(s, k);
      }
    }
  }

  lemma OutKeepsBounds(s: State, c: Inst, timeout: bool)
    requires BoundsInv(s) && OutEnabled(s, c, timeout)
    ensures BoundsInv(OutStep(s, c, timeout))
  {
  }

  lemma OutKeepsInv(s: State, c: Inst, timeout: bool)
    requires Inv(s) && OutEnabled(s, c, timeout)
    ensures Inv(OutStep(s, c, timeout))
  {
    OutKeepsRegistry(s, c, timeout);
    OutKeepsLoop(s, c, timeout);
    OutKeepsTraverse(s, c, timeout);
    OutKeepsShutdown(s, c, timeout);
    OutKeepsClients(s, c, timeout);
    OutKeepsBounds(s, c, timeout);
  }

  lemma MediaKeepsRegistry(s: State, c: Inst)
    requires RegistryInv(s) && MediaEnabled(s, c)
    ensures RegistryInv(MediaStep(s, c))
  {
    var s' := MediaStep(s, c);
    forall i: Id
      ensures EntryOk(s', i)
    {
      assert EntryOk(s, i);
    }
  }

  lemma MediaKeepsLoop(s: State, c: Inst)
    requires LoopInv(s) && MediaEnabled(s, c)
    ensures LoopInv(MediaStep(s, c))
  {
    SameLivesKeepLoop(s, MediaStep(s, c));
  }

  lemma MediaKeepsTraverse(s: State, c: Inst)
    requires TraverseInv(s) && MediaEnabled(s, c)
    ensures TraverseInv(MediaStep(s, c))
  {
  }

  lemma MediaKeepsShutdown(s: State, c: Inst)
    requires ShutdownInv(s) && MediaEnabled(s, c)
    ensures ShutdownInv(MediaStep(s, c))
  {
  }

  lemma OfferedStaysOk(s: State, s': State, k: Inst, f: Frame)
    requires k in s.clients && ClientOk(s, k)
    requires s'.clients == s.clients[k := s.clients[k].(offered := s.clients[k].offered + [f])]
    requires s'.handled == s.handled && s'.loop == s.loop && s'.dtor == s.dtor && s'.registry == s.registry
    ensures ClientOk(s', k)
  {
    assert Registered(s', k) == Registered(s, k);
  }

  lemma MediaEffect(s: State, c: Inst)
    requires MediaEnabled(s, c)
    ensures var s' := MediaStep(s, c);
            && s'.handled == s.handled && s'.loop == s.loop && s'.dtor == s.dtor && s'.registry == s.registry
            && if s.media.MVisit? && s.media.todo != {}
               then s'.clients == s.clients[c := s.clients[c].(offered := s.clients[c].offered + [s.media.f])]
               else s'.clients == s.clients
  {
  }

  lemma MediaKeepsClients(s: State, c: Inst)
    requires ClientsInv(s) && MediaEnabled(s, c)
    ensures ClientsInv(MediaStep(s, c))
  {
    MediaEffect(s, c);
    var s' := MediaStep(s, c);
    forall k | k in s'.clients
      ensures ClientOk(s', k)
    {
      assert ClientOk(s, k);
      if k == c && s.media.MVisit? && s.media.todo != {} {
        OfferedStaysOk(s, s', k, s.media.f);
      } else {
        UntouchedStaysOk(s, s', k);
      }
    }
  }

  lemma MediaKeepsBounds(s: State, c: Inst)
    requires BoundsInv(s) && MediaEnabled(s, c)
    ensures BoundsInv(MediaStep(s, c))
  {
  }

  lemma MediaKeepsInv(s: State, c: Inst)
    requires Inv(s) && MediaEnabled(s, c)
    ensures Inv(MediaStep(s, c))
  {
    MediaKeepsRegistry(s, c);
    MediaKeepsLoop(s, c);
    MediaKeepsTraverse(s, c);
    MediaKeepsShutdown(s, c);
    MediaKeepsClients(s, c);
    MediaKeepsBounds(s, c);
  }

  lemma DtorKeepsRegistry(s: State, id: Id)
    requires RegistryInv(s) && ShutdownInv(s) && DtorEnabled(s, id)
    ensures RegistryInv(DtorStep(s, id))
  {
    var s' := DtorStep(s, id);
    forall i: Id
      ensures EntryOk(s', i)
    {
      assert EntryOk(s, i);
    }
  }

  lemma DtorKeepsLoop(s: State, id: Id)
    requires LoopInv(s) && ShutdownInv(s) && DtorEnabled(s, id)
    ensures LoopInv(DtorStep(s, id))
  {
  }

  lemma DtorKeepsTraverse(s: State, id: Id)
    requires TraverseInv(s) && ShutdownInv(s) && DtorEnabled(s, id)
    ensures TraverseInv(DtorStep(s, id))
  {
  }

  lemma DtorKeepsShutdown(s: State, id: Id)
    requires ShutdownInv(s) && RegistryInv(s) && DtorEnabled(s, id)
    ensures ShutdownInv(DtorStep(s, id))
  {
    if s.dtor.XRelease? {
      assert EntryOk(s, id);
      assert |s.registry| == 0 ==> s.registry == map[];
    }
  }

  lemma DtorKeepsClients(s: State, id: Id)
    requires ClientsInv(s) && ShutdownInv(s) && RegistryInv(s) && DtorEnabled(s, id)
    ensures ClientsInv(DtorStep(s, id))
  {
    var s' := DtorStep(s, id);
    forall k | k in s'.clients
      ensures ClientOk(s', k)
    {
      assert k in s.clients ==> ClientOk(s, k);
    }
  }

  lemma DtorKeepsBounds(s: State, id: Id)
    requires BoundsInv(s) && DtorEnabled(s, id)
    ensures BoundsInv(DtorStep(s, id))
  {
  }

  lemma DtorKeepsInv(s: State, id: Id)
    requires Inv(s) && DtorEnabled(s, id)
    ensures Inv(DtorStep(s, id))
  {
    DtorKeepsRegistry(s, id);
    DtorKeepsLoop(s, id);
    DtorKeepsTraverse(s, id);
    DtorKeepsShutdown(s, id);
    DtorKeepsClients(s, id);
    DtorKeepsBounds(s, id);
  }

  lemma OtherKeepsRegistry(s: State, a: Action)
    requires RegistryInv(s) && Enabled(s, a) && !a.Loop? && !a.Out? && !a.Media? && !a.Dtor?
    ensures RegistryInv(Apply(s, a))
  {
    var s' := Apply(s, a);
    forall i: Id
      ensures EntryOk(s', i)
    {
      assert EntryOk(s, i);
    }
  }

  lemma OtherKeepsLoop(s: State, a: Action)
    requires LoopInv(s) && Enabled(s, a) && !a.Loop? && !a.Out? && !a.Media? && !a.Dtor?
    ensures LoopInv(Apply(s, a))
  {
    SameLivesKeepLoop(s, Apply(s, a));
  }

  lemma OtherKeepsTraverse(s: State, a: Action)
    requires TraverseInv(s) && Enabled(s, a) && !a.Loop? && !a.Out? && !a.Media? && !a.Dtor?
    ensures TraverseInv(Apply(s, a))
  {
  }

  lemma OtherKeepsShutdown(s: State, a: Action)
    requires ShutdownInv(s) && Enabled(s, a) && !a.Loop? && !a.Out? && !a.Media? && !a.Dtor?
    ensures ShutdownInv(Apply(s, a))
  {
  }

  lemma OtherKeepsClients(s: State, a: Action)
    requires ClientsInv(s) && Enabled(s, a) && !a.Loop? && !a.Out? && !a.Media? && !a.Dtor?
    ensures ClientsInv(Apply(s, a))
  {
    var s' := Apply(s, a);
    forall k | k in s'.clients
      ensures ClientOk(s', k)
    {
      assert k in s.clients ==> ClientOk(s, k);
    }
  }

  lemma OtherKeepsBounds(s: State, a: Action)
    requires BoundsInv(s) && Enabled(s, a) && !a.Loop? && !a.Out? && !a.Media? && !a.Dtor?
    ensures BoundsInv(Apply(s, a))
  {
  }

  lemma OtherKeepsInv(s: State, a: Action)
    requires Inv(s) && Enabled(s, a) && !a.Loop? && !a.Out? && !a.Media? && !a.Dtor?
    ensures Inv(Apply(s, a))
  {
    OtherKeepsRegistry(s, a);
    OtherKeepsLoop(s, a);
    OtherKeepsTraverse(s, a);
    OtherKeepsShutdown(s, a);
    OtherKeepsClients(s, a);
    OtherKeepsBounds(s, a);
  }

  lemma StepKeepsInv(s: State, a: Action)
    requires Inv(s) && Enabled(s, a)
    ensures Inv(Apply(s, a))
  {
    match a
    case Loop(underLock) => LoopKeepsInv(s, underLock);
    case Out(c, timeout) => OutKeepsInv(s, c, timeout);
    case Media(c) => MediaKeepsInv(s, c);
    case Dtor(id) => DtorKeepsInv(s, id);
    case _ => OtherKeepsInv(s, a);
  }

  lemma {:induction false} RunKeepsInv(ss: seq<State>, acts: seq<Action>, i: nat)
    requires IsRun(ss, acts) && Inv(ss[0]) && i <= |acts|
    ensures Inv(ss[i])
  {
    if i > 0 {
      RunKeepsInv(ss, acts, i - 1);
      assert StepAt(ss, acts, i - 1);
      StepKeepsInv(ss[i-1], acts[i-1]);
    }
  }

  lemma ReachableInv(s: State)
    requires Reachable(s)
    ensures Inv(s)
  {
    var ss, acts :| IsRun(ss, acts) && Init(ss[0]) && ss[|acts|] == s;
    InitInv(ss[0]);
    RunKeepsInv(ss, acts, |acts|);
  }

  /** A client found in the registry is the one of that id, and nobody is destroying it. */
  lemma InRegistry(s: State, c: Inst)
    requires RegistryInv(s) && c in s.registry.Values
    ensures Registered(s, c) && Intact(s.clients[c])
  {
    var id :| id in s.registry && s.registry[id] == c;
    assert EntryOk(s, id);
  }
}
