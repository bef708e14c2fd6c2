/** Where every signalling message is: conservation and order across the two queues, and who may forward what. */
module StreamerMessages {
  import opened Wrappers
  import opened BoundedFifo
  import opened StreamerModel
  import opened StreamerInvariant

  // -------------------------------------------------------- well-tagged messages

  /** A peer's message is an input; an instance's message is an output under that instance's id. */
  predicate Good(m: Msg, clients: map<Inst, Client>) {
    match m.origin
    case Peer(_, _) => m.mode.Input?
    case Made(c) => m.mode.Output? && c in clients && m.id == clients[c].id
  }

  ghost predicate AllGood(ms: seq<Msg>, clients: map<Inst, Client>) {
    forall i :: 0 <= i < |ms| ==> Good(ms[i], clients)
  }

  /** An answer for the client with this id. */
  predicate AnswerTo(m: Msg, id: Id) { m.mode.Input? && m.kind.Answer? && m.id == id }

  ghost predicate AnswersTo(ms: seq<Msg>, id: Id) {
    forall i :: 0 <= i < |ms| ==> AnswerTo(ms[i], id)
  }

  ghost predicate Delivered(k: Client) {
    AnswersTo(k.inq.items, k.id) && AnswersTo(k.applied, k.id) && (k.pc.CApply? ==> AnswerTo(k.pc.m, k.id))
  }

  ghost predicate TagsInv(s: State) {
    && AllGood(s.handled, s.clients) && AllGood(s.sigq.items, s.clients)
    && (s.ws.Some? ==> s.ws.value.origin.Peer? && s.ws.value.mode.Input?)
    && (s.out.OPush? ==> s.out.m.origin.Made? && Good(s.out.m, s.clients))
  }

  ghost predicate DeliveryInv(s: State) {
    forall c {:trigger Delivered(s.clients[c])} :: c in s.clients ==> Delivered(s.clients[c])
  }

  /** Instances are never renamed or forgotten. */
  ghost predicate Grown(clients: map<Inst, Client>, clients': map<Inst, Client>) {
    forall c :: c in clients ==> c in clients' && clients'[c].id == clients[c].id
  }

  lemma GrownKeepsGood(ms: seq<Msg>, clients: map<Inst, Client>, clients': map<Inst, Client>)
    requires AllGood(ms, clients) && Grown(clients, clients')
    ensures AllGood(ms, clients')
  {
    forall i | 0 <= i < |ms|
      ensures Good(ms[i], clients')
    {
      assert Good(ms[i], clients);
    }
  }

  ghost predicate SameNames(s: State, s': State) {
    s'.clients.Keys == s.clients.Keys && Grown(s.clients, s'.clients)
  }

  ghost predicate SameOutputs(s: State, s': State) {
    forall c :: c in s.clients && c in s'.clients ==>
      s'.clients[c].accepted == s.clients[c].accepted && s'.clients[c].outq.items == s.clients[c].outq.items
  }

  lemma LoopNames(s: State, underLock: bool)
    requires LoopEnabled(s)
    ensures !s.loop.LBuild? ==> SameNames(s, LoopStep(s, underLock))
    ensures s.loop.LBuild? ==>
              var s' := LoopStep(s, underLock);
              s'.clients == s.clients[s.loop.c := NewClient(s.loop.m.id)] && Still(s, s') && s'.out == s.out
  {
  }

  lemma OutNames(s: State, c: Inst, timeout: bool)
    requires OutEnabled(s, c, timeout)
    ensures SameNames(s, OutStep(s, c, timeout))
  {
  }

  lemma MediaNames(s: State, c: Inst)
    requires MediaEnabled(s, c)
    ensures SameNames(s, MediaStep(s, c)) && SameOutputs(s, MediaStep(s, c))
  {
  }

  lemma DestroyedKeepsName(k: Client, stage: nat)
    ensures var k' := DestroyStep(k, stage);
            k'.id == k.id && k'.accepted == k.accepted && k'.outq.items == k.outq.items
  {
  }

  lemma DtorNames(s: State, id: Id)
    requires DtorEnabled(s, id)
    ensures SameNames(s, DtorStep(s, id)) && SameOutputs(s, DtorStep(s, id))
  {
    if s.dtor.XDestroy? {
      DestroyedKeepsName(s.clients[s.dtor.c], s.dtor.stage);
    } else {
      assert DtorStep(s, id).clients == s.clients;
    }
  }

  /** Only the loop builds clients, and only under a number not used before. */
  lemma StepNames(s: State, a: Action)
    requires LoopInv(s) && Enabled(s, a)
    ensures Grown(s.clients, Apply(s, a).clients)
    ensures !(a.Loop? && s.loop.LBuild?) ==> SameNames(s, Apply(s, a))
  {
    if a.Loop? {
      LoopNames(s, a.underLock);
    } else if a.Out? {
      OutNames(s, a.c, a.timeout);
    } else if a.Media? {
      MediaNames(s, a.c);
    } else if a.Dtor? {
      DtorNames(s, a.id);
    }
  }

  lemma OneStepGrows(ss: seq<State>, acts: seq<Action>, n: nat)
    requires IsRun(ss, acts) && n < |acts| && LoopInv(ss[n])
    ensures Grown(ss[n].clients, ss[n+1].clients)
  {
    assert StepAt(ss, acts, n);
    StepNames(ss[n], acts[n]);
  }

  lemma LoopInvAt(ss: seq<State>, acts: seq<Action>, n: nat)
    requires IsRun(ss, acts) && Inv(ss[0]) && n <= |acts|
    ensures LoopInv(ss[n])
  {
    RunKeepsInv(ss, acts, n);
  }

  lemma GrownTransitive(a: map<Inst, Client>, b: map<Inst, Client>, c: map<Inst, Client>)
    requires Grown(a, b) && Grown(b, c)
    ensures Grown(a, c)
  {
  }

  lemma {:induction false} ClientsGrow(ss: seq<State>, acts: seq<Action>, k: nat, n: nat)
    requires IsRun(ss, acts) && Inv(ss[0]) && k <= n <= |acts|
    ensures Grown(ss[k].clients, ss[n].clients)
  {
    if k < n {
      LoopInvAt(ss, acts, n - 1);
      OneStepGrows(ss, acts, n - 1);
      ClientsGrow(ss, acts, k, n - 1);
      GrownTransitive(ss[k].clients, ss[n-1].clients, ss[n].clients);
    }
  }

  // What a step can do to the loop's log and to the signalling queue.

  ghost predicate Still(s: State, s': State) {
    s'.handled == s.handled && s'.sigq.items == s.sigq.items
  }

  ghost predicate LoopPopped(s: State, s': State) {
    && s.loop.LPop? && s.sigq.items != []
    && s'.handled == s.handled + [s.sigq.items[0]] && s'.sigq.items == s.sigq.items[1..]
    && s'.loop == Dispatch(s.sigq.items[0], |s.handled|) && s'.sent == s.sent
  }

  ghost predicate Pushed(s: State, s': State, m: Msg) {
    s'.handled == s.handled && s'.sigq.items == s.sigq.items + [m]
  }

  ghost predicate QueueEffect(s: State, a: Action, s': State) {
    || Still(s, s')
    || (a.Loop? && LoopPopped(s, s'))
    || (a.Out? && s.out.OPush? && Pushed(s, s', s.out.m))
    || (a.WsPush? && s.ws.Some? && Pushed(s, s', s.ws.value))
  }

  lemma LoopQueueEffect(s: State, underLock: bool)
    requires LoopEnabled(s)
    ensures s.loop.LPop? && s.sigq.items != [] ==> LoopPopped(s, LoopStep(s, underLock))
    ensures !(s.loop.LPop? && s.sigq.items != []) ==> Still(s, LoopStep(s, underLock))
    ensures var s' := LoopStep(s, underLock);
            s'.sigq.stopped == s.sigq.stopped && s'.out == s.out && s'.ws == s.ws
  {
  }

  lemma OutQueueEffect(s: State, c: Inst, timeout: bool)
    requires OutEnabled(s, c, timeout)
    ensures var s' := OutStep(s, c, timeout);
            Still(s, s') || (s.out.OPush? && Pushed(s, s', s.out.m))
    ensures var s' := OutStep(s, c, timeout);
            s'.sigq.stopped == s.sigq.stopped && s'.sent == s.sent && s'.loop == s.loop && s'.ws == s.ws
  {
  }

  lemma MediaQueueEffect(s: State, c: Inst)
    requires MediaEnabled(s, c)
    ensures var s' := MediaStep(s, c);
            && Still(s, s') && s'.sigq.stopped == s.sigq.stopped && s'.sent == s.sent && s'.loop == s.loop
            && s'.out == s.out && s'.ws == s.ws
  {
  }

  lemma DtorQueueEffect(s: State, id: Id)
    requires DtorEnabled(s, id)
    ensures var s' := DtorStep(s, id);
            && Still(s, s') && (s.sigq.stopped ==> s'.sigq.stopped) && s'.sent == s.sent && s'.loop == s.loop
            && s'.out == s.out && s'.ws == s.ws
  {
  }

  /** The one place where all the threads are looked at; the proofs below work from this summary. */
  lemma StepQueueEffect(s: State, a: Action)
    requires Enabled(s, a)
    ensures QueueEffect(s, a, Apply(s, a))
    ensures s.sigq.stopped ==> Apply(s, a).sigq.stopped
    ensures !a.Loop? ==> Apply(s, a).sent == s.sent && Apply(s, a).loop == s.loop && Apply(s, a).handled == s.handled
    ensures !a.Out? ==> Apply(s, a).out == s.out
    ensures !a.WsReceive? && !a.WsPush? ==> Apply(s, a).ws == s.ws
  {
    if a.Loop? {
      LoopQueueEffect(s, a.underLock);
    } else if a.Out? {
      OutQueueEffect(s, a.c, a.timeout);
    } else if a.Media? {
      MediaQueueEffect(s, a.c);
    } else if a.Dtor? {
      DtorQueueEffect(s, a.id);
    }
  }

  lemma QueueEffectKeepsGood(s: State, a: Action, s': State)
    requires TagsInv(s) && QueueEffect(s, a, s')
    ensures AllGood(s'.handled, s.clients) && AllGood(s'.sigq.items, s.clients)
  {
  }

  lemma TakeKeepsHand(s: State, c: Inst, timeout: bool)
    requires RegistryInv(s) && TraverseInv(s) && ClientsInv(s) && s.out.OTake? && OutEnabled(s, c, timeout)
    ensures var o := OutStep(s, c, timeout).out; o.OPush? ==> o.m.origin.Made? && Good(o.m, s.clients)
  {
    var k := s.out.c;
    InRegistry(s, k);
    assert ClientOk(s, k);
    var items := s.clients[k].outq.items;
    assert items != [] ==> MadeBy(items[0], s.clients[k], k);
  }

  lemma StepKeepsHand(s: State, a: Action)
    requires Inv(s) && Enabled(s, a) && TagsInv(s)
    ensures var o := Apply(s, a).out; o.OPush? ==> o.m.origin.Made? && Good(o.m, s.clients)
  {
    if a.Out? {
      if s.out.OTake? {
        TakeKeepsHand(s, a.c, a.timeout);
      }
    } else {
      StepQueueEffect(s, a);
    }
  }

  lemma StepKeepsWs(s: State, a: Action)
    requires Enabled(s, a) && TagsInv(s)
    ensures var w := Apply(s, a).ws; w.Some? ==> w.value.origin.Peer? && w.value.mode.Input?
  {
    StepQueueEffect(s, a);
  }

  lemma StepKeepsTags(s: State, a: Action)
    requires Inv(s) && TagsInv(s) && Enabled(s, a)
    ensures TagsInv(Apply(s, a))
  {
    var s' := Apply(s, a);
    StepNames(s, a);
    StepQueueEffect(s, a);
    QueueEffectKeepsGood(s, a, s');
    StepKeepsHand(s, a);
    StepKeepsWs(s, a);
    GrownKeepsGood(s'.handled, s.clients, s'.clients);
    GrownKeepsGood(s'.sigq.items, s.clients, s'.clients);
  }

  lemma SetKeepsDelivery(s: State, underLock: bool, c: Inst)
    requires LoopInv(s) && RegistryInv(s) && LoopEnabled(s) && s.loop.LSet? && c in s.clients && Delivered(s.clients[c])
    ensures Delivered(LoopStep(s, underLock).clients[c])
  {
    assert EntryOk(s, s.loop.m.id);
  }

  /** The input side of a client is as it was. */
  predicate SameInput(k: Client, k': Client) {
    k'.id == k.id && k'.inq.items == k.inq.items && k'.applied == k.applied && k'.pc == k.pc
  }

  /** The loop writes to a client's input only in signalingSet. */
  lemma LoopKeepsInput(s: State, underLock: bool, c: Inst)
    requires LoopEnabled(s) && !s.loop.LSet? && !s.loop.LBuild? && c in s.clients
    ensures var s' := LoopStep(s, underLock); c in s'.clients && SameInput(s.clients[c], s'.clients[c])
  {
  }

  lemma LoopKeepsDelivery(s: State, underLock: bool)
    requires LoopInv(s) && RegistryInv(s) && DeliveryInv(s) && LoopEnabled(s)
    ensures DeliveryInv(LoopStep(s, underLock))
  {
    var s' := LoopStep(s, underLock);
    LoopNames(s, underLock);
    forall c | c in s'.clients
      ensures Delivered(s'.clients[c])
    {
      if c in s.clients {
        assert Delivered(s.clients[c]);
        if s.loop.LSet? {
          SetKeepsDelivery(s, underLock, c);
        } else if !s.loop.LBuild? {
          LoopKeepsInput(s, underLock, c);
        }
      }
    }
  }

  lemma OutKeepsInput(s: State, o: Inst, timeout: bool, c: Inst)
    requires OutEnabled(s, o, timeout) && c in s.clients
    ensures var s' := OutStep(s, o, timeout);
            s'.clients.Keys == s.clients.Keys && SameInput(s.clients[c], s'.clients[c])
  {
  }

  lemma MediaKeepsInput(s: State, m: Inst, c: Inst)
    requires MediaEnabled(s, m) && c in s.clients
    ensures var s' := MediaStep(s, m); s'.clients.Keys == s.clients.Keys && SameInput(s.clients[c], s'.clients[c])
  {
  }

  lemma DtorKeepsInput(s: State, id: Id, c: Inst)
    requires DtorEnabled(s, id) && c in s.clients
    ensures var s' := DtorStep(s, id); s'.clients.Keys == s.clients.Keys && SameInput(s.clients[c], s'.clients[c])
  {
  }

  /** Apart from the loop, only a client's own thread changes its input side. */
  lemma StepInput(s: State, a: Action, c: Inst)
    requires Enabled(s, a) && !a.Loop? && c in s.clients
    ensures Apply(s, a).clients.Keys == s.clients.Keys
    ensures var k, k' := s.clients[c], Apply(s, a).clients[c];
            if a == ClientThread(c) then k' == ClientStep(k) else SameInput(k, k')
  {
    if a.Out? {
      OutKeepsInput(s, a.c, a.timeout, c);
    } else if a.Media? {
      MediaKeepsInput(s, a.c, c);
    } else if a.Dtor? {
      DtorKeepsInput(s, a.id, c);
    }
  }

  lemma StepKeepsDelivery(s: State, a: Action)
    requires Inv(s) && DeliveryInv(s) && Enabled(s, a)
    ensures DeliveryInv(Apply(s, a))
  {
    if a.Loop? {
      LoopKeepsDelivery(s, a.underLock);
    } else {
      forall c | c in Apply(s, a).clients
        ensures Delivered(Apply(s, a).clients[c])
      {
        if c !in s.clients {
          StepNames(s, a);
        } else {
          assert Delivered(s.clients[c]);
          StepInput(s, a, c);
        }
      }
    }
  }

  // ------------------------------------------------------------- conservation

  /** The messages of ms made by instance c, in order. */
  function From(ms: seq<Msg>, c: Inst): seq<Msg> {
    if ms == [] then []
    else From(ms[..|ms|-1], c) + if ms[|ms|-1].origin == Made(c) then [ms[|ms|-1]] else []
  }

  lemma {:induction false} FromConcat(a: seq<Msg>, b: seq<Msg>, c: Inst)
    ensures From(a + b, c) == From(a, c) + From(b, c)
    decreases |b|
  {
    if b == [] {
      assert a + b == a;
    } else {
      var n := |b| - 1;
      FromConcat(a, b[..n], c);
      assert (a + b)[..|a + b|-1] == a + b[..n];
    }
  }

  lemma {:induction false} FromNobody(ms: seq<Msg>, c: Inst, clients: map<Inst, Client>)
    requires AllGood(ms, clients) && c !in clients
    ensures From(ms, c) == []
  {
    if ms != [] {
      assert Good(ms[|ms|-1], clients);
      FromNobody(ms[..|ms|-1], c, clients);
    }
  }

  /** The message of c the output thread holds between the two queues. */
  function InHand(s: State, c: Inst): seq<Msg> {
    if s.out.OPush? && s.out.m.origin == Made(c) then [s.out.m] else []
  }

  ghost predicate Conserved(s: State, c: Inst)
    requires c in s.clients
  {
    s.clients[c].accepted == From(s.handled + s.sigq.items, c) + InHand(s, c) + s.clients[c].outq.items
  }

  ghost predicate ConservationInv(s: State) {
    !s.sigq.stopped ==> forall c {:trigger Conserved(s, c)} :: c in s.clients ==> Conserved(s, c)
  }

  lemma BuildConserves(s: State, underLock: bool)
    requires LoopInv(s) && TagsInv(s) && s.loop.LBuild?
    ensures Conserved(LoopStep(s, underLock), s.loop.c)
  {
    var c := s.loop.c;
    FromNobody(s.handled, c, s.clients);
    FromNobody(s.sigq.items, c, s.clients);
    FromConcat(s.handled, s.sigq.items, c);
  }

  /** Nothing of instance c moved, except along the way it must go. */
  lemma SameFlowConserves(s: State, s': State, c: Inst)
    requires c in s.clients && Conserved(s, c) && c in s'.clients
    requires s'.clients[c].accepted == s.clients[c].accepted && s'.clients[c].outq.items == s.clients[c].outq.items
    requires s'.out == s.out && s'.handled + s'.sigq.items == s.handled + s.sigq.items
    ensures Conserved(s', c)
  {
  }

  lemma LoopDestroyKeepsOutput(s: State, underLock: bool, c: Inst)
    requires LoopEnabled(s) && s.loop.LDestroy? && c in s.clients
    ensures var s' := LoopStep(s, underLock);
            c in s'.clients && s'.clients[c].accepted == s.clients[c].accepted
            && s'.clients[c].outq.items == s.clients[c].outq.items
  {
    DestroyedKeepsName(s.clients[s.loop.c], s.loop.stage);
  }

  lemma LoopKeepsOutput(s: State, underLock: bool, c: Inst)
    requires LoopInv(s) && LoopEnabled(s) && c in s.clients
    ensures var s' := LoopStep(s, underLock);
            c in s'.clients && s'.clients[c].accepted == s.clients[c].accepted
            && s'.clients[c].outq.items == s.clients[c].outq.items
  {
    if s.loop.LDestroy? {
      LoopDestroyKeepsOutput(s, underLock, c);
    }
  }

  lemma MoveOne(a: seq<Msg>, b: seq<Msg>)
    requires b != []
    ensures (a + [b[0]]) + b[1..] == a + b
  {
    assert b == [b[0]] + b[1..];
  }

  /** The loop only moves messages from its queue to the handled ones. */
  lemma LoopKeepsFlow(s: State, underLock: bool)
    requires LoopEnabled(s)
    ensures var s' := LoopStep(s, underLock);
            s'.out == s.out && s'.handled + s'.sigq.items == s.handled + s.sigq.items
  {
    LoopQueueEffect(s, underLock);
    if s.sigq.items != [] {
      MoveOne(s.handled, s.sigq.items);
    }
  }

  lemma LoopKeepsConserved(s: State, underLock: bool, c: Inst)
    requires LoopInv(s) && LoopEnabled(s) && c in s.clients && Conserved(s, c)
    ensures c in LoopStep(s, underLock).clients && Conserved(LoopStep(s, underLock), c)
  {
    LoopKeepsOutput(s, underLock, c);
    LoopKeepsFlow(s, underLock);
    SameFlowConserves(s, LoopStep(s, underLock), c);
  }

  lemma PushKeepsConserved(s: State, m: Msg, c: Inst)
    ensures From(s.handled + (s.sigq.items + [m]), c) ==
            From(s.handled + s.sigq.items, c) + if m.origin == Made(c) then [m] else []
  {
    assert s.handled + (s.sigq.items + [m]) == (s.handled + s.sigq.items) + [m];
  }

  lemma TakeKeepsConserved(s: State, k: Inst, timeout: bool, c: Inst)
    requires RegistryInv(s) && TraverseInv(s) && ClientsInv(s)
    requires s.out.OTake? && OutEnabled(s, k, timeout) && c in s.clients && Conserved(s, c)
    ensures c in OutStep(s, k, timeout).clients && Conserved(OutStep(s, k, timeout), c)
  {
    var d := s.out.c;
    InRegistry(s, d);
    assert ClientOk(s, d);
    var items := s.clients[d].outq.items;
    if items != [] {
      assert MadeBy(items[0], s.clients[d], d);
      assert items == [items[0]] + items[1..];
      if c == d {
        var f := From(s.handled + s.sigq.items, c);
        assert f + [] + ([items[0]] + items[1..]) == f + [items[0]] + items[1..];
      }
    }
  }

  lemma HandOverEffect(s: State, k: Inst, timeout: bool)
    requires s.out.OPush? && !s.sigq.stopped && OutEnabled(s, k, timeout)
    ensures var s' := OutStep(s, k, timeout);
            && s'.clients == s.clients && s'.handled == s.handled && s'.out == OVisit(s.out.todo)
            && s'.sigq.items == s.sigq.items + [s.out.m]
  {
  }

  lemma HandOverKeepsConserved(s: State, k: Inst, timeout: bool, c: Inst)
    requires s.out.OPush? && !s.sigq.stopped && OutEnabled(s, k, timeout) && c in s.clients && Conserved(s, c)
    ensures c in OutStep(s, k, timeout).clients && Conserved(OutStep(s, k, timeout), c)
  {
    HandOverEffect(s, k, timeout);
    PushKeepsConserved(s, s.out.m, c);
  }

  lemma OutKeepsConserved(s: State, k: Inst, timeout: bool, c: Inst)
    requires RegistryInv(s) && TraverseInv(s) && ClientsInv(s) && !s.sigq.stopped
    requires OutEnabled(s, k, timeout) && c in s.clients && Conserved(s, c)
    ensures c in OutStep(s, k, timeout).clients && Conserved(OutStep(s, k, timeout), c)
  {
    if s.out.OTake? {
      TakeKeepsConserved(s, k, timeout, c);
    } else if s.out.OPush? {
      HandOverKeepsConserved(s, k, timeout, c);
    }
  }

  lemma CallbackKeepsConserved(s: State, a: Action, c: Inst)
    requires a.Callback? && Enabled(s, a) && c in s.clients && Conserved(s, c)
    ensures Conserved(Apply(s, a), c)
  {
  }

  /** The media thread, the client threads and the destructor leave c's log and out queue as they are. */
  lemma QuietKeepsOutput(s: State, a: Action, c: Inst)
    requires Enabled(s, a) && (a.Media? || a.ClientThread? || a.Dtor? || a.PushData? || a.WsReceive? || a.WsPush?)
    requires c in s.clients
    ensures var s' := Apply(s, a);
            c in s'.clients && s'.clients[c].accepted == s.clients[c].accepted
            && s'.clients[c].outq.items == s.clients[c].outq.items
  {
    if a.Media? {
      MediaNames(s, a.c);
    } else if a.Dtor? {
      DtorNames(s, a.id);
    }
  }

  lemma OtherKeepsConserved(s: State, a: Action, c: Inst)
    requires TagsInv(s) && Enabled(s, a) && !a.Loop? && !a.Out? && !s.sigq.stopped
    requires c in s.clients && Conserved(s, c)
    ensures c in Apply(s, a).clients && Conserved(Apply(s, a), c)
  {
    if a.Callback? {
      CallbackKeepsConserved(s, a, c);
    } else {
      QuietKeepsOutput(s, a, c);
      StepQueueEffect(s, a);
      if a.WsPush? {
        PushKeepsConserved(s, s.ws.value, c);
      }
    }
  }

  lemma StepConserves(s: State, a: Action, c: Inst)
    requires Inv(s) && TagsInv(s) && Enabled(s, a) && !s.sigq.stopped
    requires c in s.clients && Conserved(s, c)
    ensures c in Apply(s, a).clients && Conserved(Apply(s, a), c)
  {
    if a.Loop? {
      LoopKeepsConserved(s, a.underLock, c);
    } else if a.Out? {
      OutKeepsConserved(s, a.c, a.timeout, c);
    } else {
      OtherKeepsConserved(s, a, c);
    }
  }

  lemma StepKeepsConservation(s: State, a: Action)
    requires Inv(s) && TagsInv(s) && ConservationInv(s) && Enabled(s, a)
    ensures ConservationInv(Apply(s, a))
  {
    var s' := Apply(s, a);
    StepQueueEffect(s, a);
    StepNames(s, a);
    if !s'.sigq.stopped {
      forall c | c in s'.clients
        ensures Conserved(s', c)
      {
        if c in s.clients {
          assert Conserved(s, c);
          StepConserves(s, a, c);
        } else {
          LoopNames(s, a.underLock);
          BuildConserves(s, a.underLock);
        }
      }
    }
  }

  // ------------------------------------------------------------ what was sent

  /** What the loop must send: the outputs that are not disconnects. */
  function ToSend(ms: seq<Msg>): seq<Msg> {
    if ms == [] then []
    else
      var m := ms[|ms|-1];
      ToSend(ms[..|ms|-1]) + if m.mode.Output? && !m.kind.Disconnect? then [m] else []
  }

  ghost predicate SentInv(s: State) {
    ToSend(s.handled) == s.sent + if s.loop.LSend? then [s.loop.m] else []
  }

  lemma LoopKeepsSent(s: State, underLock: bool)
    requires SentInv(s) && LoopEnabled(s)
    ensures SentInv(LoopStep(s, underLock))
  {
    LoopQueueEffect(s, underLock);
    if s.loop.LPop? && s.sigq.items != [] {
      var m := s.sigq.items[0];
      assert (s.handled + [m])[..|s.handled|] == s.handled;
    }
  }

  lemma StepKeepsSent(s: State, a: Action)
    requires SentInv(s) && Enabled(s, a)
    ensures SentInv(Apply(s, a))
  {
    if a.Loop? {
      LoopKeepsSent(s, a.underLock);
    } else {
      StepQueueEffect(s, a);
    }
  }

  // --------------------------------------------------------------- theorems

  ghost predicate MessagesInv(s: State) {
    Inv(s) && TagsInv(s) && DeliveryInv(s) && ConservationInv(s) && SentInv(s)
  }

  lemma StepKeepsMessages(s: State, a: Action)
    requires MessagesInv(s) && Enabled(s, a)
    ensures MessagesInv(Apply(s, a))
  {
    StepKeepsInv(s, a);
    StepKeepsTags(s, a);
    StepKeepsDelivery(s, a);
    StepKeepsConservation(s, a);
    StepKeepsSent(s, a);
  }

  lemma {:induction false} RunKeepsMessages(ss: seq<State>, acts: seq<Action>, i: nat)
    requires IsRun(ss, acts) && MessagesInv(ss[0]) && i <= |acts|
    ensures MessagesInv(ss[i])
  {
    if i > 0 {
      RunKeepsMessages(ss, acts, i - 1);
      assert StepAt(ss, acts, i - 1);
      StepKeepsMessages(ss[i-1], acts[i-1]);
    }
  }

  lemma ReachableMessages(s: State)
    requires Reachable(s)
    ensures MessagesInv(s)
  {
    var ss, acts :| IsRun(ss, acts) && Init(ss[0]) && ss[|acts|] == s;
    InitInv(ss[0]);
    RunKeepsMessages(ss, acts, |acts|);
  }

  /**
   Two-hop conservation, in order: before the signalling queue is stopped, what
   the callbacks of an instance had accepted is what the loop has handled, then
   what waits in the signalling queue, then the message in the output thread's
   hand, then what waits in the instance's own queue.
   */
  lemma TwoHopConservation(s: State, c: Inst)
    requires Reachable(s) && !s.sigq.stopped && c in s.clients
    ensures s.clients[c].accepted ==
            From(s.handled, c) + From(s.sigq.items, c) + InHand(s, c) + s.clients[c].outq.items
  {
    ReachableMessages(s);
    assert Conserved(s, c);
    FromConcat(s.handled, s.sigq.items, c);
  }

  /** The websocket gets, in order, exactly the handled outputs that are not disconnects. */
  lemma SentIsHandledOutputs(s: State)
    requires Reachable(s)
    ensures ToSend(s.handled) == s.sent + if s.loop.LSend? then [s.loop.m] else []
    ensures forall m :: m in s.sent ==>
              m.origin.Made? && m.origin.inst in s.clients && s.clients[m.origin.inst].id == m.id
  {
    ReachableMessages(s);
    forall m | m in s.sent
      ensures m.origin.Made? && m.origin.inst in s.clients && s.clients[m.origin.inst].id == m.id
    {
      assert m in ToSend(s.handled);
      ToSendFrom(s.handled, m);
      var i :| 0 <= i < |s.handled| && s.handled[i] == m;
      assert Good(s.handled[i], s.clients);
    }
  }

  lemma {:induction false} ToSendFrom(ms: seq<Msg>, m: Msg)
    requires m in ToSend(ms)
    ensures m in ms && m.mode.Output?
  {
    var n := |ms| - 1;
    if !(ms[n].mode.Output? && !ms[n].kind.Disconnect?) || m != ms[n] {
      ToSendFrom(ms[..n], m);
    }
  }

  lemma PushedOutput(s: State, a: Action, s': State)
    requires Inv(s) && TagsInv(s) && QueueEffect(s, a, s')
    requires |s'.sigq.items| == |s.sigq.items| + 1 && s'.sigq.items[|s.sigq.items|].mode.Output?
    ensures a.Out? && s.out.OPush? && s'.sigq.items[|s.sigq.items|] == s.out.m
    ensures var m := s.out.m;
            m.origin.Made? && Registered(s, m.origin.inst) && m.id in s.registry && s.registry[m.id] == m.origin.inst
  {
    if s.out.OPush? {
      InRegistry(s, s.out.m.origin.inst);
    }
  }

  /** An output message enters the signalling queue only from an instance registered at that moment, under its id. */
  lemma OutputsComeFromRegistered(s: State, a: Action)
    requires Reachable(s) && Enabled(s, a)
    requires var q, q' := s.sigq.items, Apply(s, a).sigq.items;
             |q'| == |q| + 1 && q'[|q|].mode.Output?
    ensures var m := Apply(s, a).sigq.items[|s.sigq.items|];
            a.Out? && m.origin.Made? && Registered(s, m.origin.inst)
            && m.id in s.registry && s.registry[m.id] == m.origin.inst
  {
    ReachableMessages(s);
    StepQueueEffect(s, a);
    PushedOutput(s, a, Apply(s, a));
  }

  /** Every answer queued to a client, being applied or applied carries that client's id. */
  lemma AnswersReachTheirClient(s: State, c: Inst)
    requires Reachable(s) && c in s.clients
    ensures forall m :: m in s.clients[c].inq.items || m in s.clients[c].applied ==> AnswerTo(m, s.clients[c].id)
  {
    ReachableMessages(s);
    assert Delivered(s.clients[c]);
  }
}
