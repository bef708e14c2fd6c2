/** Every answer for a registered client reaches it, in order and once; and nothing reaches it after its erasure. */
module StreamerInbound {
  import opened StreamerModel
  import opened StreamerInvariant
  import opened StreamerMessages
  import opened StreamerBroadcast

  /** The answers for id among ms, in order. */
  function Answers(ms: seq<Msg>, id: Id): seq<Msg> {
    if ms == [] then []
    else Answers(ms[..|ms|-1], id) + if AnswerTo(ms[|ms|-1], id) then [ms[|ms|-1]] else []
  }

  /** All a client was given: what its thread has applied, the answer in its hand, what waits in the queue. */
  function Received(k: Client): seq<Msg> {
    k.applied + (if k.pc.CApply? then [k.pc.m] else []) + k.inq.items
  }

  /** The answer for client c that the loop has popped and not yet pushed. */
  function OnTheWay(s: State, c: Inst): seq<Msg>
    requires c in s.clients
  {
    if (s.loop.LGet? && s.loop.m.id == s.clients[c].id) || (s.loop.LSet? && s.loop.c == c) then [s.loop.m] else []
  }

  /** Client c has, or is about to get, every answer handled since the request it was built for. */
  ghost predicate Inbound(s: State, c: Inst) {
    && c in s.clients && c < |s.handled|
    && (Registered(s, c) ==>
          Received(s.clients[c]) + OnTheWay(s, c) == Answers(s.handled[c+1..], s.clients[c].id))
    && (s.loop.LEmplace? && s.loop.c == c ==> Received(s.clients[c]) == [])
  }

  ghost predicate InboundInv(s: State) {
    forall c {:trigger Inbound(s, c)} :: c in s.clients ==> Inbound(s, c)
  }

  // ------------------------------------------------------- steps of the loop

  lemma AnswersAppend(ms: seq<Msg>, m: Msg, id: Id)
    ensures Answers(ms + [m], id) == Answers(ms, id) + if AnswerTo(m, id) then [m] else []
  {
    assert (ms + [m])[..|ms|] == ms;
  }

  lemma PopEffect(s: State, underLock: bool)
    requires s.loop.LPop? && LoopEnabled(s)
    ensures var s' := LoopStep(s, underLock);
            && s'.clients == s.clients && s'.registry == s.registry
            && if s.sigq.items == [] then s'.handled == s.handled && s'.loop == LCheck
               else var m := s.sigq.items[0]; s'.handled == s.handled + [m] && s'.loop == Dispatch(m, |s.handled|)
  {
  }

  lemma PopKeepsInbound(s: State, underLock: bool, c: Inst)
    requires s.loop.LPop? && LoopEnabled(s) && Inbound(s, c)
    ensures Inbound(LoopStep(s, underLock), c)
  {
    PopEffect(s, underLock);
    if s.sigq.items != [] {
      DispatchKeepsInbound(s, LoopStep(s, underLock), s.sigq.items[0], c);
    }
  }

  /** A message that was just popped is on the way to c exactly if it is an answer for it. */
  lemma DispatchedAnswer(s: State, m: Msg, n: nat, c: Inst)
    requires c in s.clients && s.loop == Dispatch(m, n)
    ensures OnTheWay(s, c) == (if AnswerTo(m, s.clients[c].id) then [m] else []) && !s.loop.LEmplace?
  {
  }

  lemma AnswersFromGrow(ms: seq<Msg>, m: Msg, c: Inst, id: Id)
    requires c < |ms|
    ensures Answers((ms + [m])[c+1..], id) == Answers(ms[c+1..], id) + if AnswerTo(m, id) then [m] else []
  {
    AnswersAppend(ms[c+1..], m, id);
    assert (ms + [m])[c+1..] == ms[c+1..] + [m];
  }

  lemma DispatchKeepsInbound(s: State, s': State, m: Msg, c: Inst)
    requires s.loop.LPop? && Inbound(s, c) && s'.clients == s.clients && s'.registry == s.registry
    requires s'.handled == s.handled + [m] && s'.loop == Dispatch(m, |s.handled|)
    ensures Inbound(s', c)
  {
    AnswersFromGrow(s.handled, m, c, s.clients[c].id);
    DispatchedAnswer(s', m, |s.handled|, c);
    assert OnTheWay(s, c) == [] && Registered(s', c) == Registered(s, c);
  }

  lemma EmplaceKeepsInbound(s: State, underLock: bool, c: Inst)
    requires s.loop.LEmplace? && LoopEnabled(s) && LoopInv(s) && Inbound(s, c)
    ensures Inbound(LoopStep(s, underLock), c)
  {
    if c != s.loop.c {
      LoopRegistersNoOther(s, underLock, c);
    }
  }

  lemma GetKeepsInbound(s: State, underLock: bool, c: Inst)
    requires s.loop.LGet? && LoopEnabled(s) && LoopInv(s) && RegistryInv(s) && Inbound(s, c)
    ensures Inbound(LoopStep(s, underLock), c)
  {
    assert EntryOk(s, s.loop.m.id);
  }

  lemma SetKeepsInbound(s: State, underLock: bool, c: Inst)
    requires s.loop.LSet? && LoopEnabled(s) && LoopInv(s) && RegistryInv(s) && Inbound(s, c)
    ensures Inbound(LoopStep(s, underLock), c)
  {
    assert EntryOk(s, s.loop.m.id);
    var k := s.clients[c];
    if s.loop.c == c {
      var k' := LoopStep(s, underLock).clients[c];
      assert k'.inq.items == k.inq.items + [s.loop.m];
      assert Received(k') == Received(k) + [s.loop.m];
    }
  }

  /** The rest of the loop neither brings an answer nor registers anybody. */
  lemma RestOfLoop(s: State, underLock: bool, c: Inst)
    requires LoopEnabled(s) && LoopInv(s) && c in s.clients
    requires !s.loop.LPop? && !s.loop.LEmplace? && !s.loop.LGet? && !s.loop.LSet?
    ensures var s' := LoopStep(s, underLock);
            && c in s'.clients && s'.clients[c].id == s.clients[c].id
            && Received(s'.clients[c]) == Received(s.clients[c])
            && s'.handled == s.handled && (Registered(s', c) ==> Registered(s, c))
            && OnTheWay(s, c) == OnTheWay(s', c) == [] && !(s'.loop.LEmplace? && s'.loop.c == c)
  {
    LoopRegistersNoOther(s, underLock, c);
    LoopOffersNothing(s, underLock, c);
    if !s.loop.LBuild? {
      LoopKeepsInput(s, underLock, c);
    }
  }

  lemma LoopKeepsInbound(s: State, underLock: bool, c: Inst)
    requires LoopEnabled(s) && LoopInv(s) && RegistryInv(s) && Inbound(s, c)
    ensures Inbound(LoopStep(s, underLock), c)
  {
    if s.loop.LPop? {
      PopKeepsInbound(s, underLock, c);
    } else if s.loop.LEmplace? {
      EmplaceKeepsInbound(s, underLock, c);
    } else if s.loop.LGet? {
      GetKeepsInbound(s, underLock, c);
    } else if s.loop.LSet? {
      SetKeepsInbound(s, underLock, c);
    } else {
      RestOfLoop(s, underLock, c);
    }
  }

  lemma BuildInbound(s: State, underLock: bool)
    requires s.loop.LBuild? && LoopInv(s) && RegistryInv(s)
    ensures Inbound(LoopStep(s, underLock), s.loop.c)
  {
    assert EntryOk(s, s.loop.m.id);
  }

  // ------------------------------------------------- steps of the other threads

  lemma ClientKeepsReceived(k: Client)
    ensures ClientStep(k).id == k.id && Received(ClientStep(k)) == Received(k)
  {
    if k.pc.CPop? && k.inq.items != [] {
      assert k.inq.items == [k.inq.items[0]] + k.inq.items[1..];
    }
  }

  lemma OthersKeepReceived(s: State, a: Action, c: Inst)
    requires Enabled(s, a) && !a.Loop? && c in s.clients
    ensures c in Apply(s, a).clients
    ensures var k, k' := s.clients[c], Apply(s, a).clients[c]; k'.id == k.id && Received(k') == Received(k)
  {
    StepInput(s, a, c);
    ClientKeepsReceived(s.clients[c]);
  }

  lemma OthersRegisterNobody(s: State, a: Action, c: Inst)
    requires Enabled(s, a) && !a.Loop? && c in s.clients
    ensures Registered(Apply(s, a), c) ==> Registered(s, c)
  {
    if a.Out? {
      OutUnconcerned(s, a.c, a.timeout);
    } else if a.Media? {
      MediaEffect(s, a.c);
    } else if a.Dtor? {
      DtorUnconcerned(s, a.id);
    } else if !a.PushData? {
      BystanderUnconcerned(s, a);
    }
  }

  lemma OthersKeepInbound(s: State, a: Action, c: Inst)
    requires Enabled(s, a) && !a.Loop? && Inbound(s, c)
    ensures Inbound(Apply(s, a), c)
  {
    StepQueueEffect(s, a);
    OthersKeepReceived(s, a, c);
    OthersRegisterNobody(s, a, c);
  }

  lemma StepKeepsInbound(s: State, a: Action)
    requires Inv(s) && InboundInv(s) && Enabled(s, a)
    ensures InboundInv(Apply(s, a))
  {
    StepNames(s, a);
    forall c | c in Apply(s, a).clients
      ensures Inbound(Apply(s, a), c)
    {
      if c !in s.clients {
        LoopNames(s, a.underLock);
        BuildInbound(s, a.underLock);
      } else {
        assert Inbound(s, c);
        if a.Loop? {
          LoopKeepsInbound(s, a.underLock, c);
        } else {
          OthersKeepInbound(s, a, c);
        }
      }
    }
  }

  lemma {:induction false} RunKeepsInbound(ss: seq<State>, acts: seq<Action>, i: nat)
    requires IsRun(ss, acts) && Init(ss[0]) && i <= |acts|
    ensures Inv(ss[i]) && InboundInv(ss[i])
  {
    if i == 0 {
      InitInv(ss[0]);
    } else {
      RunKeepsInbound(ss, acts, i - 1);
      assert StepAt(ss, acts, i - 1);
      StepKeepsInv(ss[i-1], acts[i-1]);
      StepKeepsInbound(ss[i-1], acts[i-1]);
    }
  }

  // ------------------------------------------------------------------ theorems

  /**
   Inbound conservation, in order: of the messages handled since the request a
   registered client was built for, the answers under its id are what its thread
   has applied, then the one in its hand, then what waits in its queue, then the
   one the loop is delivering.
   */
  lemma InboundConservation(s: State, c: Inst)
    requires Reachable(s) && Registered(s, c)
    ensures c < |s.handled|
    ensures var k := s.clients[c];
            Answers(s.handled[c+1..], k.id) ==
            k.applied + (if k.pc.CApply? then [k.pc.m] else []) + k.inq.items + OnTheWay(s, c)
  {
    var ss, acts :| IsRun(ss, acts) && Init(ss[0]) && ss[|acts|] == s;
    RunKeepsInbound(ss, acts, |acts|);
    assert Inbound(s, c);
  }

  lemma LoopSkipsRetired(s: State, underLock: bool, c: Inst)
    requires Inv(s) && LoopEnabled(s) && Retired(s, c)
    ensures c in LoopStep(s, underLock).clients
    ensures Received(LoopStep(s, underLock).clients[c]) == Received(s.clients[c])
  {
    if s.loop.LSet? {
      assert EntryOk(s, s.loop.m.id);
    } else if s.loop.LBuild? {
      LoopNames(s, underLock);
    } else {
      LoopKeepsInput(s, underLock, c);
    }
  }

  lemma RetiredGetsNothing(s: State, a: Action, c: Inst)
    requires Inv(s) && Enabled(s, a) && Retired(s, c)
    ensures c in Apply(s, a).clients && Received(Apply(s, a).clients[c]) == Received(s.clients[c])
  {
    if a.Loop? {
      LoopSkipsRetired(s, a.underLock, c);
    } else {
      OthersKeepReceived(s, a, c);
    }
  }

  lemma {:induction false} RetiredReceived(ss: seq<State>, acts: seq<Action>, i: nat, j: nat, c: Inst)
    requires IsRun(ss, acts) && Inv(ss[0]) && i <= j <= |acts| && Retired(ss[i], c)
    ensures c in ss[j].clients && Received(ss[j].clients[c]) == Received(ss[i].clients[c])
  {
    if i < j {
      RetiredReceived(ss, acts, i, j - 1, c);
      RetiredForever(ss, acts, i, j - 1, c);
      RunKeepsInv(ss, acts, j - 1);
      assert StepAt(ss, acts, j - 1);
      RetiredGetsNothing(ss[j-1], acts[j-1], c);
    }
  }

  lemma LoopUnregisters(s: State, underLock: bool, c: Inst)
    requires Inv(s) && LoopEnabled(s) && Registered(s, c) && !Registered(LoopStep(s, underLock), c)
    ensures s.loop.LErase? && OnTheWay(s, c) == []
    ensures c in LoopStep(s, underLock).clients && Received(LoopStep(s, underLock).clients[c]) == Received(s.clients[c])
  {
    if s.loop.LErase? {
      LoopKeepsInput(s, underLock, c);
    } else {
      LoopKeepsEntries(s, underLock, c);
    }
  }

  /** Only an erasure takes an entry away. */
  lemma LoopKeepsEntries(s: State, underLock: bool, c: Inst)
    requires LoopInv(s) && LoopEnabled(s) && Registered(s, c) && !s.loop.LErase?
    ensures Registered(LoopStep(s, underLock), c)
  {
    LoopOffersNothing(s, underLock, c);
  }

  lemma DtorUnregisters(s: State, id: Id, c: Inst)
    requires Inv(s) && DtorEnabled(s, id) && Registered(s, c) && !Registered(DtorStep(s, id), c)
    ensures OnTheWay(s, c) == []
  {
    DtorUnconcerned(s, id);
  }

  lemma ErasureFindsNothingOnTheWay(s: State, a: Action, c: Inst)
    requires Inv(s) && Enabled(s, a) && Registered(s, c) && !Registered(Apply(s, a), c)
    ensures OnTheWay(s, c) == []
    ensures c in Apply(s, a).clients && Received(Apply(s, a).clients[c]) == Received(s.clients[c])
  {
    if a.Loop? {
      LoopUnregisters(s, a.underLock, c);
    } else {
      OthersKeepReceived(s, a, c);
      if a.Dtor? {
        DtorUnregisters(s, a.id, c);
      } else if a.Out? {
        OutUnconcerned(s, a.c, a.timeout);
      } else if a.Media? {
        MediaEffect(s, a.c);
      } else if !a.PushData? {
        BystanderUnconcerned(s, a);
      }
    }
  }

  /**
   A client whose registration has ended was given exactly the answers handled
   between the request it was built for and that end, and is never given another.
   */
  lemma ReceivedUntilErased(ss: seq<State>, acts: seq<Action>, i: nat, j: nat, c: Inst)
    requires IsRun(ss, acts) && Init(ss[0]) && i < j <= |acts|
    requires Registered(ss[i], c) && !Registered(ss[i+1], c)
    ensures c in ss[j].clients && c < |ss[i].handled|
    ensures Received(ss[j].clients[c]) == Answers(ss[i].handled[c+1..], ss[i].clients[c].id)
  {
    InitInv(ss[0]);
    RunKeepsInbound(ss, acts, i);
    assert Inbound(ss[i], c);
    RunReachable(ss, acts, i);
    assert StepAt(ss, acts, i);
    RegistrationEnds(ss[i], acts[i], c);
    ErasureFindsNothingOnTheWay(ss[i], acts[i], c);
    RetiredReceived(ss, acts, i + 1, j, c);
  }
}
