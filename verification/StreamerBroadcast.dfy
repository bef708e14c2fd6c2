/** Every client is offered one contiguous stretch of the accepted frames, each frame once. */
module StreamerBroadcast {
  import opened BoundedFifo
  import opened StreamerModel
  import opened StreamerInvariant

  /** Frames the media thread has popped. */
  function Taken(s: State): nat {
    s.framesDone + if s.media.MAcquire? || s.media.MVisit? then 1 else 0
  }

  /** The frames popped so far and the queue make up the accepted frames; the frame in hand is the next one. */
  ghost predicate FramesInv(s: State) {
    && Taken(s) + |s.framesq.items| == |s.framesIn|
    && s.framesq.items == s.framesIn[Taken(s)..]
    && (s.media.MAcquire? || s.media.MVisit? ==> s.media.f == s.framesIn[s.framesDone])
  }

  /** How far into the accepted frames the broadcast has come for instance c, if it is registered. */
  function ReachedFor(s: State, c: Inst): nat {
    s.framesDone + if s.media.MVisit? && c !in s.media.todo then 1 else 0
  }

  ghost predicate Offered(s: State, c: Inst)
    requires c in s.clients
  {
    var k := s.clients[c];
    var end := k.start + |k.offered|;
    && end <= Taken(s) <= |s.framesIn|
    && k.offered == s.framesIn[k.start..end]
    && (Registered(s, c) ==> end == ReachedFor(s, c))
    && (s.loop.LEmplace? && s.loop.c == c ==> k.offered == [])
  }

  ghost predicate OfferedInv(s: State) {
    forall c {:trigger Offered(s, c)} :: c in s.clients ==> Offered(s, c)
  }

  // Steps that do not concern the broadcast.

  ghost predicate SameMedia(s: State, s': State) {
    && s'.media == s.media && s'.framesDone == s.framesDone
    && s'.framesIn == s.framesIn && s'.framesq.items == s.framesq.items
  }

  ghost predicate SameOffers(s: State, s': State, c: Inst) {
    && c in s.clients && c in s'.clients
    && s'.clients[c].start == s.clients[c].start && s'.clients[c].offered == s.clients[c].offered
    && s'.clients[c].id == s.clients[c].id
  }

  lemma UnconcernedKeepsFrames(s: State, s': State)
    requires FramesInv(s) && SameMedia(s, s')
    ensures FramesInv(s')
  {
  }

  lemma UnconcernedKeepsOffered(s: State, s': State, c: Inst)
    requires SameMedia(s, s') && SameOffers(s, s', c) && Offered(s, c)
    requires Registered(s', c) ==> Registered(s, c)
    requires s'.loop.LEmplace? && s'.loop.c == c ==> s.loop == s'.loop
    ensures Offered(s', c)
  {
  }

  lemma LoopSameMedia(s: State, underLock: bool)
    requires LoopEnabled(s)
    ensures SameMedia(s, LoopStep(s, underLock))
  {
  }

  lemma LoopRegistersNoOther(s: State, underLock: bool, c: Inst)
    requires LoopInv(s) && LoopEnabled(s) && c in s.clients && !(s.loop.LEmplace? && s.loop.c == c)
    ensures var s' := LoopStep(s, underLock);
            (Registered(s', c) ==> Registered(s, c)) && !(s'.loop.LEmplace? && s'.loop.c == c)
  {
  }

  lemma LoopOffersNothing(s: State, underLock: bool, c: Inst)
    requires LoopInv(s) && LoopEnabled(s) && c in s.clients && !(s.loop.LEmplace? && s.loop.c == c)
    ensures SameOffers(s, LoopStep(s, underLock), c)
  {
  }

  lemma LoopSameOffers(s: State, underLock: bool, c: Inst)
    requires LoopInv(s) && LoopEnabled(s) && c in s.clients && !(s.loop.LEmplace? && s.loop.c == c)
    ensures var s' := LoopStep(s, underLock);
            && SameOffers(s, s', c) && (Registered(s', c) ==> Registered(s, c))
            && !(s'.loop.LEmplace? && s'.loop.c == c)
  {
    LoopRegistersNoOther(s, underLock, c);
    LoopOffersNothing(s, underLock, c);
  }

  lemma EmplaceOffers(s: State, underLock: bool)
    requires LoopEnabled(s) && s.loop.LEmplace? && FramesInv(s) && Offered(s, s.loop.c)
    requires !Registered(s, s.loop.c)
    ensures Offered(LoopStep(s, underLock), s.loop.c)
  {
    var s' := LoopStep(s, underLock);
    assert s.framesIn[s.framesDone..s.framesDone] == [];
    assert !MediaReads(s');
  }

  lemma BuildOffers(s: State, underLock: bool)
    requires LoopInv(s) && RegistryInv(s) && LoopEnabled(s) && s.loop.LBuild? && FramesInv(s)
    ensures Offered(LoopStep(s, underLock), s.loop.c)
  {
    assert s.framesIn[0..0] == [];
    assert EntryOk(s, s.loop.m.id);
  }

  lemma LoopKeepsOffered(s: State, underLock: bool, c: Inst)
    requires LoopInv(s) && RegistryInv(s) && FramesInv(s) && LoopEnabled(s) && c in LoopStep(s, underLock).clients
    requires c in s.clients ==> Offered(s, c)
    ensures Offered(LoopStep(s, underLock), c)
  {
    if c !in s.clients {
      BuildOffers(s, underLock);
    } else if s.loop.LEmplace? && s.loop.c == c {
      EmplaceOffers(s, underLock);
    } else {
      LoopSameMedia(s, underLock);
      LoopSameOffers(s, underLock, c);
      UnconcernedKeepsOffered(s, LoopStep(s, underLock), c);
    }
  }

  lemma OutUnconcerned(s: State, k: Inst, timeout: bool)
    requires OutEnabled(s, k, timeout)
    ensures var s' := OutStep(s, k, timeout);
            && SameMedia(s, s') && s'.registry == s.registry && s'.loop == s.loop
            && s'.clients.Keys == s.clients.Keys && forall c :: c in s.clients ==> SameOffers(s, s', c)
  {
  }

  lemma DestroyedSameOffers(k: Client, stage: nat)
    ensures var k' := DestroyStep(k, stage);
            k'.id == k.id && k'.start == k.start && k'.offered == k.offered
  {
  }

  lemma DtorUnconcerned(s: State, id: Id)
    requires DtorEnabled(s, id)
    ensures var s' := DtorStep(s, id);
            && SameMedia(s, s') && s'.loop == s.loop && (s'.registry == s.registry || s'.registry == s.registry - {id})
            && s'.clients.Keys == s.clients.Keys && forall c :: c in s.clients ==> SameOffers(s, s', c)
  {
    if s.dtor.XDestroy? {
      DestroyedSameOffers(s.clients[s.dtor.c], s.dtor.stage);
    } else {
      assert DtorStep(s, id).clients == s.clients;
    }
  }

  predicate Bystander(a: Action) { a.ClientThread? || a.Callback? || a.WsReceive? || a.WsPush? }

  lemma BystanderUnconcerned(s: State, a: Action)
    requires Enabled(s, a) && Bystander(a)
    ensures var s' := Apply(s, a);
            && SameMedia(s, s') && s'.registry == s.registry && s'.loop == s.loop
            && s'.clients.Keys == s.clients.Keys && forall c :: c in s.clients ==> SameOffers(s, s', c)
  {
  }

  // ---------------------------------------------------------- the broadcast

  lemma PopKeepsFrames(s: State, k: Inst)
    requires FramesInv(s) && MediaEnabled(s, k) && s.media.MPop?
    ensures FramesInv(MediaStep(s, k))
  {
  }

  lemma MediaKeepsFrames(s: State, k: Inst)
    requires FramesInv(s) && MediaEnabled(s, k)
    ensures FramesInv(MediaStep(s, k)) && MediaStep(s, k).clients.Keys == s.clients.Keys
  {
    if s.media.MPop? {
      PopKeepsFrames(s, k);
    }
  }

  lemma GrowSegment(frames: seq<Frame>, i: nat, j: nat)
    requires i <= j < |frames|
    ensures frames[i..j] + [frames[j]] == frames[i..j+1]
  {
  }

  lemma OfferKeepsOffered(s: State, k: Inst, c: Inst)
    requires FramesInv(s) && TraverseInv(s) && RegistryInv(s) && LoopInv(s)
    requires s.media.MVisit? && k in s.media.todo
    requires MediaEnabled(s, k) && c in s.clients && Offered(s, c)
    ensures Offered(MediaStep(s, k), c)
  {
    InRegistry(s, k);
    var s' := MediaStep(s, k);
    assert Registered(s', c) == Registered(s, c);
    if c == k {
      var o := s.clients[c];
      var end := o.start + |o.offered|;
      assert end == s.framesDone;
      GrowSegment(s.framesIn, o.start, end);
    }
  }

  lemma MediaKeepsOffered(s: State, k: Inst, c: Inst)
    requires FramesInv(s) && TraverseInv(s) && RegistryInv(s) && LoopInv(s)
    requires MediaEnabled(s, k) && c in s.clients && Offered(s, c)
    ensures Offered(MediaStep(s, k), c)
  {
    if s.media.MVisit? && s.media.todo != {} {
      OfferKeepsOffered(s, k, c);
    } else {
      var s' := MediaStep(s, k);
      assert s'.clients == s.clients && s'.registry == s.registry && s'.loop == s.loop;
      assert Registered(s, c) ==> s.registry[s.clients[c].id] in s.registry.Values;
    }
  }

  lemma PushKeepsOffered(s: State, f: Frame, c: Inst)
    requires FramesInv(s) && CanPush(s.framesq) && c in s.clients && Offered(s, c)
    ensures var s' := Apply(s, PushData(f));
            FramesInv(s') && s'.clients == s.clients && Offered(s', c)
  {
    var s' := Apply(s, PushData(f));
    var k := s.clients[c];
    assert s'.framesIn[..|s.framesIn|] == s.framesIn;
    assert s'.framesIn[k.start..k.start+|k.offered|] == s.framesIn[k.start..k.start+|k.offered|];
  }

  lemma PushKeepsFrames(s: State, f: Frame)
    requires FramesInv(s) && CanPush(s.framesq)
    ensures FramesInv(Apply(s, PushData(f)))
  {
  }

  lemma StepKeepsFrames(s: State, a: Action)
    requires FramesInv(s) && Enabled(s, a)
    ensures FramesInv(Apply(s, a))
  {
    var s' := Apply(s, a);
    if a.Media? {
      MediaKeepsFrames(s, a.c);
    } else if a.PushData? {
      PushKeepsFrames(s, a.f);
    } else {
      if a.Loop? {
        LoopSameMedia(s, a.underLock);
      } else if a.Out? {
        OutUnconcerned(s, a.c, a.timeout);
      } else if a.Dtor? {
        DtorUnconcerned(s, a.id);
      } else {
        BystanderUnconcerned(s, a);
      }
      UnconcernedKeepsFrames(s, s');
    }
  }

  lemma StepKeepsOffered(s: State, a: Action, c: Inst)
    requires Inv(s) && FramesInv(s) && OfferedInv(s) && Enabled(s, a) && c in Apply(s, a).clients
    ensures Offered(Apply(s, a), c)
  {
    var s' := Apply(s, a);
    assert c in s.clients ==> Offered(s, c);
    if a.Loop? {
      LoopKeepsOffered(s, a.underLock, c);
    } else if a.Media? {
      MediaKeepsFrames(s, a.c);
      MediaKeepsOffered(s, a.c, c);
    } else if a.PushData? {
      PushKeepsOffered(s, a.f, c);
    } else {
      if a.Out? {
        OutUnconcerned(s, a.c, a.timeout);
      } else if a.Dtor? {
        DtorUnconcerned(s, a.id);
      } else {
        BystanderUnconcerned(s, a);
      }
      UnconcernedKeepsOffered(s, s', c);
    }
  }

  ghost predicate BroadcastInv(s: State) { Inv(s) && FramesInv(s) && OfferedInv(s) }

  lemma StepKeepsBroadcast(s: State, a: Action)
    requires BroadcastInv(s) && Enabled(s, a)
    ensures BroadcastInv(Apply(s, a))
  {
    StepKeepsInv(s, a);
    StepKeepsFrames(s, a);
    forall c | c in Apply(s, a).clients
      ensures Offered(Apply(s, a), c)
    {
      StepKeepsOffered(s, a, c);
    }
  }

  lemma {:induction false} RunKeepsBroadcast(ss: seq<State>, acts: seq<Action>, i: nat)
    requires IsRun(ss, acts) && Init(ss[0]) && i <= |acts|
    ensures BroadcastInv(ss[i])
  {
    if i == 0 {
      InitInv(ss[0]);
    } else {
      RunKeepsBroadcast(ss, acts, i - 1);
      assert StepAt(ss, acts, i - 1);
      StepKeepsBroadcast(ss[i-1], acts[i-1]);
    }
  }

  /**
   Broadcast atomicity, for every instance ever built: the frames it was offered
   are the accepted frames from `start` on, without gap, repetition or
   reordering; a registered instance has been offered every frame up to the one
   being broadcast, and that one too unless it is still to be visited.
   */
  lemma OffersAreOneSegment(s: State, c: Inst)
    requires Reachable(s) && c in s.clients
    ensures var k := s.clients[c];
            && k.start + |k.offered| <= |s.framesIn|
            && k.offered == s.framesIn[k.start..k.start + |k.offered|]
            && (Registered(s, c) ==> k.start + |k.offered| == ReachedFor(s, c))
    ensures Taken(s) <= |s.framesIn| && s.framesq.items == s.framesIn[Taken(s)..]
  {
    var ss, acts :| IsRun(ss, acts) && Init(ss[0]) && ss[|acts|] == s;
    RunKeepsBroadcast(ss, acts, |acts|);
    assert Offered(s, c);
  }

  // ------------------------------------------------ after the registration

  /** Registered no more, and not about to be registered. */
  predicate Retired(s: State, c: Inst) {
    c in s.clients && !Registered(s, c) && !(s.loop.LEmplace? && s.loop.c == c)
  }

  lemma MediaSkipsRetired(s: State, k: Inst, c: Inst)
    requires Inv(s) && MediaEnabled(s, k) && Retired(s, c)
    ensures var s' := MediaStep(s, k); Retired(s', c) && s'.clients[c] == s.clients[c]
  {
    MediaEffect(s, k);
    if s.media.MVisit? && s.media.todo != {} {
      InRegistry(s, k);
    }
  }

  lemma RetiredStays(s: State, a: Action, c: Inst)
    requires Inv(s) && Enabled(s, a) && Retired(s, c)
    ensures Retired(Apply(s, a), c) && SameOffers(s, Apply(s, a), c)
  {
    if a.Loop? {
      LoopSameOffers(s, a.underLock, c);
    } else if a.Media? {
      MediaSkipsRetired(s, a.c, c);
    } else if a.Out? {
      OutUnconcerned(s, a.c, a.timeout);
    } else if a.Dtor? {
      DtorUnconcerned(s, a.id);
    } else if !a.PushData? {
      BystanderUnconcerned(s, a);
    }
  }

  /** The client set does not change while a frame is being broadcast. */
  lemma NoChangeDuringBroadcast(s: State, a: Action)
    requires Reachable(s) && MediaReads(s) && Enabled(s, a)
    ensures Apply(s, a).registry == s.registry
  {
    ReachableInv(s);
    if a.Loop? {
      LoopHoldsOff(s, a.underLock);
    } else if a.Out? {
      OutUnconcerned(s, a.c, a.timeout);
    } else if a.Dtor? {
      DtorHoldsOff(s, a.id);
    }
  }

  lemma LoopHoldsOff(s: State, underLock: bool)
    requires LoopEnabled(s) && MediaReads(s)
    ensures LoopStep(s, underLock).registry == s.registry
  {
  }

  lemma DtorHoldsOff(s: State, id: Id)
    requires DtorEnabled(s, id) && ShutdownInv(s) && MediaReads(s)
    ensures DtorStep(s, id).registry == s.registry
  {
  }

  lemma LoopRetires(s: State, underLock: bool, c: Inst)
    requires Inv(s) && LoopEnabled(s) && Registered(s, c) && !Registered(LoopStep(s, underLock), c)
    ensures var s' := LoopStep(s, underLock); Retired(s', c) && SameOffers(s, s', c)
  {
    LoopSameOffers(s, underLock, c);
  }

  /** The step that ends a registration comes between two broadcasts, and the instance has had every frame so far. */
  lemma RegistrationEnds(s: State, a: Action, c: Inst)
    requires Reachable(s) && Enabled(s, a) && Registered(s, c) && !Registered(Apply(s, a), c)
    ensures Retired(Apply(s, a), c) && SameOffers(s, Apply(s, a), c)
    ensures s.clients[c].start + |s.clients[c].offered| == s.framesDone
  {
    ReachableInv(s);
    if a.Loop? {
      LoopRetires(s, a.underLock, c);
    } else if a.Media? {
      MediaEffect(s, a.c);
    } else if a.Out? {
      OutUnconcerned(s, a.c, a.timeout);
    } else if a.Dtor? {
      DtorUnconcerned(s, a.id);
    } else if !a.PushData? {
      BystanderUnconcerned(s, a);
    }
    if MediaReads(s) {
      NoChangeDuringBroadcast(s, a);
    }
    OffersAreOneSegment(s, c);
  }

  lemma {:induction false} RunReachable(ss: seq<State>, acts: seq<Action>, i: nat)
    requires IsRun(ss, acts) && Init(ss[0]) && i <= |acts|
    ensures Reachable(ss[i])
  {
    var before, done := ss[..i+1], acts[..i];
    forall k | 0 <= k < |done|
      ensures StepAt(before, done, k)
    {
      assert StepAt(ss, acts, k);
    }
    assert before[|done|] == ss[i];
  }

  lemma {:induction false} RetiredForever(ss: seq<State>, acts: seq<Action>, i: nat, j: nat, c: Inst)
    requires IsRun(ss, acts) && Inv(ss[0]) && i <= j <= |acts| && Retired(ss[i], c)
    ensures Retired(ss[j], c) && SameOffers(ss[i], ss[j], c)
  {
    if i < j {
      RetiredForever(ss, acts, i, j - 1, c);
      RunKeepsInv(ss, acts, j - 1);
      assert StepAt(ss, acts, j - 1);
      RetiredStays(ss[j-1], acts[j-1], c);
    }
  }

  /**
   The segment of an instance that was registered and is no more ends where the
   broadcast stood when its registration ended: it has had every frame up to there,
   and is never offered another, nor registered again.
   */
  lemma SegmentEndsWithRegistration(ss: seq<State>, acts: seq<Action>, i: nat, j: nat, c: Inst)
    requires IsRun(ss, acts) && Init(ss[0]) && i < j <= |acts|
    requires Registered(ss[i], c) && !Registered(ss[i+1], c)
    ensures Retired(ss[j], c) && SameOffers(ss[i], ss[j], c)
    ensures ss[j].clients[c].start + |ss[j].clients[c].offered| == ss[i].framesDone
  {
    InitInv(ss[0]);
    RunReachable(ss, acts, i);
    assert StepAt(ss, acts, i);
    RegistrationEnds(ss[i], acts[i], c);
    RetiredForever(ss, acts, i + 1, j, c);
  }
}
