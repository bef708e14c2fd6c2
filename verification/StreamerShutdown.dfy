/** Once the destructor has set the flag, every schedule joins every thread, from any reachable state. */
module StreamerShutdown {
  import opened Sets
  import opened BoundedFifo
  import opened StreamerModel
  import opened StreamerInvariant
  import opened StreamerStall

  /** A step of one of the program's own threads, not of its environment. */
  predicate SystemStep(a: Action) {
    a.Loop? || a.Out? || a.Media? || a.ClientThread? || a.Dtor?
  }

  /** None of the program's own threads can take a step. */
  ghost predicate AtRest(s: State) { forall a: Action :: SystemStep(a) ==> !Enabled(s, a) }

  predicate AllJoined(s: State) {
    && s.loop.LDone? && s.out.ODone? && s.media.MDone? && s.dtor.XDone?
    && s.registry == map[]
    && forall c :: c in s.clients ==> s.clients[c].gone && s.clients[c].pc.CDone?
  }

  // --------------------------------------------------------------- measure

  function LoopRank(l: LoopPc): nat {
    match l
    case LDone => 0
    case LJoin => 1
    case LCheck => 2
    case LSend(_) => 3
    case LSet(_, _) => 6
    case LGet(_) => 7
    case LDestroy(_, stage, _) => if stage <= 4 then 7 - stage else 2
    case LErase(_) => 8
    case LEmplace(_, _) => 20
    case LBuild(_, _) => 26
    case LPop => 27
  }

  function OutRank(o: OutPc, registered: nat): nat {
    match o
    case ODone => 0
    case OCheck => 1
    case OVisit(todo) => 2 + 4 * |todo|
    case OTake(todo, _) => 5 + 4 * |todo|
    case OPush(todo, _) => 4 + 4 * |todo|
    case OAcquire => 3 + 4 * registered
  }

  function BroadcastRank(m: MediaPc, registered: nat): nat {
    match m
    case MDone => 0
    case MCheck => 1
    case MVisit(_, todo) => 2 + |todo|
    case MAcquire(_) => 3 + registered
    case MPop => 4 + registered
  }

  function DtorRank(d: DtorPc, registered: nat): nat {
    match d
    case XDone => 0
    case XRelease => 1 + 7 * registered
    case XDestroy(_, stage) => 1 + 7 * registered + if stage <= 4 then 5 - stage else 0
    case XJoinMedia => 2 + 7 * registered
    case XStopFrames => 3 + 7 * registered
    case XJoinLoop => 4 + 7 * registered
    case XCloseWs => 5 + 7 * registered
    case XStopSignaling => 6 + 7 * registered
    case XIdle => 7 + 7 * registered
  }

  function ThreadRank(k: Client): nat {
    3 * |k.inq.items| +
    match k.pc
    case CDone => 0
    case CCheck => if k.term then 1 else 5
    case CApply(_) => if k.term then 2 else 6
    case CPop => if k.term then 3 else 4
  }

  function RankOf(clients: map<Inst, Client>, c: Inst): nat {
    if c in clients then ThreadRank(clients[c]) else 0
  }

  /** The ranks of the client threads numbered below n. */
  function ThreadRanks(clients: map<Inst, Client>, n: nat): nat {
    if n == 0 then 0 else ThreadRanks(clients, n - 1) + RankOf(clients, n - 1)
  }

  function Rank(s: State): nat {
    LoopRank(s.loop) + OutRank(s.out, |s.registry|) + BroadcastRank(s.media, |s.registry|)
    + DtorRank(s.dtor, |s.registry|) + ThreadRanks(s.clients, |s.handled|)
  }

  lemma {:induction false} OneThreadChanges(clients: map<Inst, Client>, n: nat, c: Inst, k: Client)
    ensures ThreadRanks(clients[c := k], n) ==
            ThreadRanks(clients, n) + if c < n then ThreadRank(k) - RankOf(clients, c) else 0
  {
    if n > 0 {
      OneThreadChanges(clients, n - 1, c, k);
    }
  }

  lemma {:induction false} ValuesNoMoreThanKeys(m: map<Id, Inst>)
    ensures |m.Values| <= |m|
    decreases |m|
  {
    if |m| == 0 {
      assert m.Values == {};
    } else {
      var id :| id in m;
      var rest := m - {id};
      ValuesNoMoreThanKeys(rest);
      assert m.Values <= rest.Values + {m[id]} by {
        forall v | v in m.Values
          ensures v in rest.Values + {m[id]}
        {
          var i :| i in m && m[i] == v;
          assert i != id ==> i in rest && rest[i] == v;
        }
      }
      SubsetSize(m.Values, rest.Values + {m[id]});
    }
  }

  lemma RemoveSize(m: map<Id, Inst>, id: Id)
    requires id in m
    ensures |m - {id}| == |m| - 1
  {
    assert (m - {id}).Keys == m.Keys - {id};
  }

  // -------------------------------------------- every own step lowers the rank

  lemma ClientLowersRank(s: State, c: Inst)
    requires ClientsInv(s) && ClientEnabled(s, c)
    ensures Rank(s.(clients := s.clients[c := ClientStep(s.clients[c])])) < Rank(s)
  {
    assert ClientOk(s, c);
    OneThreadChanges(s.clients, |s.handled|, c, ClientStep(s.clients[c]));
  }

  lemma DestroyKeepsThreadRank(s: State, c: Inst, stage: nat)
    requires ClientsInv(s) && c in s.clients
    ensures ThreadRanks(s.clients[c := DestroyStep(s.clients[c], stage)], |s.handled|) <=
            ThreadRanks(s.clients, |s.handled|)
  {
    assert ClientOk(s, c);
    OneThreadChanges(s.clients, |s.handled|, c, DestroyStep(s.clients[c], stage));
  }

  lemma ReleaseLowersRank(s: State, id: Id)
    requires s.dtor.XRelease? && id in s.registry
    ensures Rank(DtorStep(s, id)) < Rank(s)
  {
    RemoveSize(s.registry, id);
  }

  lemma DtorDestroyLowersRank(s: State, id: Id)
    requires ClientsInv(s) && ShutdownInv(s) && s.dtor.XDestroy? && DtorEnabled(s, id)
    ensures Rank(DtorStep(s, id)) < Rank(s)
  {
    DestroyKeepsThreadRank(s, s.dtor.c, s.dtor.stage);
  }

  lemma DtorLowersRank(s: State, id: Id)
    requires ClientsInv(s) && ShutdownInv(s) && DtorEnabled(s, id)
    ensures Rank(DtorStep(s, id)) < Rank(s)
  {
    if s.dtor.XRelease? && id in s.registry {
      ReleaseLowersRank(s, id);
    } else if s.dtor.XDestroy? {
      DtorDestroyLowersRank(s, id);
    }
  }

  lemma OfferLowersRank(s: State, c: Inst)
    requires ClientsInv(s) && s.media.MVisit? && c in s.media.todo && c in s.clients
    ensures Rank(MediaStep(s, c)) < Rank(s)
  {
    assert ClientOk(s, c);
    OneThreadChanges(s.clients, |s.handled|, c, MediaStep(s, c).clients[c]);
    assert s.media.todo == (s.media.todo - {c}) + {c};
  }

  lemma MediaLowersRank(s: State, c: Inst)
    requires s.term && ClientsInv(s) && MediaEnabled(s, c)
    ensures Rank(MediaStep(s, c)) < Rank(s)
  {
    if s.media.MVisit? && s.media.todo != {} {
      OfferLowersRank(s, c);
    } else {
      ValuesNoMoreThanKeys(s.registry);
    }
  }

  lemma TakeLowersRank(s: State, c: Inst, timeout: bool)
    requires ClientsInv(s) && s.out.OTake? && OutEnabled(s, c, timeout)
    ensures Rank(OutStep(s, c, timeout)) < Rank(s)
  {
    var k := s.out.c;
    assert ClientOk(s, k);
    OneThreadChanges(s.clients, |s.handled|, k, s.clients[k].(outq := AfterPop(s.clients[k].outq)));
  }

  lemma VisitLowersRank(s: State, c: Inst)
    requires s.out.OVisit? && OutEnabled(s, c, false)
    ensures Rank(OutStep(s, c, false)) < Rank(s)
  {
    var todo := s.out.todo;
    assert todo != {} ==> todo == (todo - {c}) + {c};
  }

  lemma AcquireLowersRank(s: State)
    requires s.out.OAcquire? && OutEnabled(s, 0, false)
    ensures Rank(OutStep(s, 0, false)) < Rank(s)
  {
    ValuesNoMoreThanKeys(s.registry);
  }

  lemma OutLowersRank(s: State, c: Inst, timeout: bool)
    requires s.term && ClientsInv(s) && OutEnabled(s, c, timeout)
    ensures Rank(OutStep(s, c, timeout)) < Rank(s)
  {
    if s.out.OTake? {
      TakeLowersRank(s, c, timeout);
    } else if s.out.OVisit? {
      VisitLowersRank(s, c);
    } else if s.out.OAcquire? {
      AcquireLowersRank(s);
    }
  }

  lemma PopLowersRank(s: State)
    requires s.term && ClientsInv(s) && s.loop.LPop? && LoopEnabled(s)
    ensures Rank(LoopStep(s, false)) < Rank(s)
  {
    var n := |s.handled|;
    assert n in s.clients ==> ClientOk(s, n);
    assert ThreadRanks(s.clients, n + 1) == ThreadRanks(s.clients, n);
    if s.sigq.items != [] {
      assert LoopStep(s, false).handled == s.handled + [s.sigq.items[0]];
    }
  }

  lemma BuildLowersRank(s: State)
    requires LoopInv(s) && s.loop.LBuild?
    ensures Rank(LoopStep(s, false)) < Rank(s)
  {
    OneThreadChanges(s.clients, |s.handled|, s.loop.c, NewClient(s.loop.m.id));
  }

  /** What one more registered client can cost: its visits by both broadcasts, and its own destruction. */
  lemma RegistrationCost(o: OutPc, m: MediaPc, d: DtorPc, n: nat)
    ensures OutRank(o, n + 1) <= OutRank(o, n) + 4
    ensures BroadcastRank(m, n + 1) <= BroadcastRank(m, n) + 1
    ensures DtorRank(d, n + 1) <= DtorRank(d, n) + 7
  {
  }

  lemma RegisterLowersRank(s: State)
    requires s.loop.LEmplace? && LoopEnabled(s) && s.loop.m.id !in s.registry
    ensures Rank(LoopStep(s, false)) < Rank(s)
  {
    var m, c := s.loop.m, s.loop.c;
    OneThreadChanges(s.clients, |s.handled|, c, s.clients[c].(start := s.framesDone));
    assert s.registry[m.id := c].Keys == s.registry.Keys + {m.id};
    assert |s.registry[m.id := c]| == |s.registry| + 1;
    RegistrationCost(s.out, s.media, s.dtor, |s.registry|);
    assert RankOf(s.clients, c) == ThreadRank(s.clients[c].(start := s.framesDone));
  }

  lemma EmplaceLowersRank(s: State, underLock: bool)
    requires s.loop.LEmplace? && LoopEnabled(s)
    ensures Rank(LoopStep(s, underLock)) < Rank(s)
  {
    if s.loop.m.id !in s.registry {
      RegisterLowersRank(s);
    }
  }

  lemma RanksGrow(o: OutPc, m: MediaPc, d: DtorPc, n: nat)
    ensures OutRank(o, n) <= OutRank(o, n + 1)
    ensures BroadcastRank(m, n) <= BroadcastRank(m, n + 1)
    ensures DtorRank(d, n) <= DtorRank(d, n + 1)
  {
  }

  lemma EraseLowersRank(s: State)
    requires s.loop.LErase? && LoopEnabled(s)
    ensures Rank(LoopStep(s, false)) < Rank(s)
  {
    if s.loop.m.id in s.registry {
      RemoveSize(s.registry, s.loop.m.id);
      RanksGrow(s.out, s.media, s.dtor, |s.registry| - 1);
    }
  }

  lemma DestroyLowersRank(s: State)
    requires LoopInv(s) && ClientsInv(s) && s.loop.LDestroy? && LoopEnabled(s)
    ensures Rank(LoopStep(s, false)) < Rank(s)
  {
    DestroyKeepsThreadRank(s, s.loop.c, s.loop.stage);
  }

  lemma SetLowersRank(s: State)
    requires ClientsInv(s) && s.loop.LSet? && LoopEnabled(s)
    ensures Rank(LoopStep(s, false)) < Rank(s)
  {
    var m, c := s.loop.m, s.loop.c;
    assert ClientOk(s, c);
    OneThreadChanges(s.clients, |s.handled|, c, s.clients[c].(inq := AfterPush(s.clients[c].inq, m)));
  }

  lemma LoopLowersRank(s: State, underLock: bool)
    requires s.term && LoopInv(s) && ClientsInv(s) && LoopEnabled(s)
    ensures Rank(LoopStep(s, underLock)) < Rank(s)
  {
    if s.loop.LPop? {
      PopLowersRank(s);
    } else if s.loop.LBuild? {
      BuildLowersRank(s);
    } else if s.loop.LEmplace? {
      EmplaceLowersRank(s, underLock);
    } else if s.loop.LSet? {
      SetLowersRank(s);
    } else if s.loop.LDestroy? {
      DestroyLowersRank(s);
    } else if s.loop.LErase? {
      EraseLowersRank(s);
    }
  }

  lemma SystemStepLowersRank(s: State, a: Action)
    requires Inv(s) && s.term && Enabled(s, a) && SystemStep(a)
    ensures Rank(Apply(s, a)) < Rank(s)
  {
    match a
    case Loop(underLock) => LoopLowersRank(s, underLock);
    case Out(c, timeout) => OutLowersRank(s, c, timeout);
    case Media(c) => MediaLowersRank(s, c);
    case ClientThread(c) => ClientLowersRank(s, c);
    case Dtor(id) => DtorLowersRank(s, id);
    case _ =>
  }

  lemma EnvironmentKeepsRank(s: State, a: Action)
    requires Inv(s) && Enabled(s, a) && !SystemStep(a)
    ensures Rank(Apply(s, a)) == Rank(s)
  {
    if a.Callback? {
      assert ClientOk(s, a.c);
      OneThreadChanges(s.clients, |s.handled|, a.c, Apply(s, a).clients[a.c]);
    }
  }

  // --------------------------------------------------- something can always move

  lemma LoopSideCanMove(s: State)
    requires Inv(s) && s.sigq.stopped && !s.loop.LDone?
    ensures exists a: Action :: SystemStep(a) && Enabled(s, a)
  {
    if s.loop.LJoin? || s.loop.LPop? {
      if LoopEnabled(s) {
        assert Enabled(s, Loop(false));
      } else if OutReads(s) {
        OutCanMove(s);
      } else {
        assert Enabled(s, Out(0, false));
      }
    } else if (s.loop.LEmplace? || s.loop.LErase?) && OutReads(s) {
      OutCanMove(s);
    } else {
      LoopOrHelperCanMove(s);
    }
  }

  lemma MediaSideCanMove(s: State)
    requires Inv(s) && s.loop.LDone? && s.framesq.stopped && !s.media.MDone?
    ensures exists a: Action :: SystemStep(a) && Enabled(s, a)
  {
    if MediaReads(s) {
      MediaCanMove(s);
    } else {
      assert Enabled(s, Media(0));
    }
  }

  lemma DtorSideCanMove(s: State)
    requires Inv(s) && s.term && !s.dtor.XDone?
    ensures exists a: Action :: SystemStep(a) && Enabled(s, a)
  {
    if DtorEnabled(s, "") {
      assert Enabled(s, Dtor(""));
    } else if s.dtor.XJoinLoop? {
      LoopSideCanMove(s);
    } else if s.dtor.XJoinMedia? {
      MediaSideCanMove(s);
    } else if s.dtor.XRelease? {
      var id :| id in s.registry;
      assert Enabled(s, Dtor(id));
    } else {
      assert Enabled(s, ClientThread(s.dtor.c));
    }
  }

  /** A state of the shutdown in which no thread of the program can move is one in which all have been joined. */
  lemma StuckMeansJoined(s: State)
    requires Inv(s) && s.term && AtRest(s)
    ensures AllJoined(s)
  {
    if !s.dtor.XDone? {
      DtorSideCanMove(s);
    }
    forall c | c in s.clients
      ensures s.clients[c].gone && s.clients[c].pc.CDone?
    {
      assert ClientOk(s, c);
    }
  }

  lemma JoinedIsAtRest(s: State)
    requires AllJoined(s)
    ensures AtRest(s)
  {
    forall a: Action | SystemStep(a)
      ensures !Enabled(s, a)
    {
      match a
      case Loop(_) => assert !LoopEnabled(s);
      case Out(c, timeout) => assert !OutEnabled(s, c, timeout);
      case Media(c) => assert !MediaEnabled(s, c);
      case ClientThread(c) => assert !ClientEnabled(s, c);
      case Dtor(id) => assert !DtorEnabled(s, id);
      case _ =>
    }
  }

  /** How many of the first n steps are the program's own. */
  function SystemSteps(acts: seq<Action>, n: nat): nat
    requires n <= |acts|
  {
    if n == 0 then 0 else SystemSteps(acts, n - 1) + if SystemStep(acts[n-1]) then 1 else 0
  }

  lemma LoopTermStays(s: State, underLock: bool)
    requires s.term && LoopEnabled(s)
    ensures LoopStep(s, underLock).term
  {
  }

  lemma TermStays(s: State, a: Action)
    requires s.term && Enabled(s, a)
    ensures Apply(s, a).term
  {
    if a.Loop? {
      LoopTermStays(s, a.underLock);
    }
  }

  lemma StepRank(s: State, a: Action)
    requires Inv(s) && s.term && Enabled(s, a)
    ensures Rank(Apply(s, a)) + (if SystemStep(a) then 1 else 0) <= Rank(s)
    ensures Apply(s, a).term
  {
    TermStays(s, a);
    if SystemStep(a) {
      SystemStepLowersRank(s, a);
    } else {
      EnvironmentKeepsRank(s, a);
    }
  }

  lemma {:induction false} RankBoundsSteps(ss: seq<State>, acts: seq<Action>, n: nat)
    requires IsRun(ss, acts) && Inv(ss[0]) && ss[0].term && n <= |acts|
    ensures SystemSteps(acts, n) + Rank(ss[n]) <= Rank(ss[0])
    ensures ss[n].term
  {
    if n > 0 {
      RankBoundsSteps(ss, acts, n - 1);
      RunKeepsInv(ss, acts, n - 1);
      assert StepAt(ss, acts, n - 1);
      StepRank(ss[n-1], acts[n-1]);
    }
  }

  /**
   Shutdown always finishes.  From any reachable state in which the destructor
   has begun, a stalled one included, and whatever callbacks, websocket messages
   and pushData calls still arrive: the program's own threads take at most
   Rank(start) more steps, and when none of them can take one, the destructor has
   returned, every thread is joined and every client is destroyed.
   */
  lemma ShutdownFinishes(ss: seq<State>, acts: seq<Action>)
    requires IsRun(ss, acts) && Reachable(ss[0]) && ss[0].term
    ensures SystemSteps(acts, |acts|) <= Rank(ss[0])
    ensures AtRest(ss[|acts|]) <==> AllJoined(ss[|acts|])
  {
    ReachableInv(ss[0]);
    RankBoundsSteps(ss, acts, |acts|);
    RunKeepsInv(ss, acts, |acts|);
    if AtRest(ss[|acts|]) {
      StuckMeansJoined(ss[|acts|]);
    }
    if AllJoined(ss[|acts|]) {
      JoinedIsAtRest(ss[|acts|]);
    }
  }

  // ------------------------------------------------- at most one more item each

  /** Messages popped by the loop, plus the one it may still be waiting for. */
  function LoopTakes(s: State): nat { |s.handled| + if s.loop.LPop? then 1 else 0 }

  function MediaTakes(s: State): nat {
    s.framesDone + match s.media
                   case MPop => 1
                   case MAcquire(_) => 1
                   case MVisit(_, _) => 1
                   case _ => 0
  }

  function ClientTakes(s: State, c: Inst): nat
    requires c in s.clients
  {
    |s.clients[c].applied| + if s.clients[c].pc.CPop? || s.clients[c].pc.CApply? then 1 else 0
  }

  lemma LoopTakesNoMore(s: State, underLock: bool)
    requires s.term && LoopEnabled(s)
    ensures LoopTakes(LoopStep(s, underLock)) <= LoopTakes(s)
    ensures MediaTakes(LoopStep(s, underLock)) == MediaTakes(s)
  {
  }

  lemma MediaTakesNoMore(s: State, c: Inst)
    requires s.term && MediaEnabled(s, c)
    ensures MediaTakes(MediaStep(s, c)) <= MediaTakes(s) && LoopTakes(MediaStep(s, c)) == LoopTakes(s)
  {
  }

  lemma StepTakesNoMore(s: State, a: Action)
    requires s.term && Enabled(s, a)
    ensures LoopTakes(Apply(s, a)) <= LoopTakes(s)
    ensures MediaTakes(Apply(s, a)) <= MediaTakes(s)
  {
    if a.Loop? {
      LoopTakesNoMore(s, a.underLock);
    } else if a.Media? {
      MediaTakesNoMore(s, a.c);
    }
  }

  lemma LoopTakesFrom(s: State, underLock: bool, c: Inst)
    requires LoopInv(s) && LoopEnabled(s) && c in s.clients && s.clients[c].term
    ensures var s' := LoopStep(s, underLock);
            c in s'.clients && s'.clients[c].term && ClientTakes(s', c) <= ClientTakes(s, c)
  {
  }

  lemma StepTakesNoMoreFrom(s: State, a: Action, c: Inst)
    requires LoopInv(s) && Enabled(s, a) && c in s.clients && s.clients[c].term
    ensures c in Apply(s, a).clients && Apply(s, a).clients[c].term
    ensures ClientTakes(Apply(s, a), c) <= ClientTakes(s, c)
  {
    if a.Loop? {
      LoopTakesFrom(s, a.underLock, c);
    }
  }

  /** After the flag is set, the loop handles at most one more message and the media thread at most one more frame. */
  lemma {:induction false} AtMostOneMoreItem(ss: seq<State>, acts: seq<Action>, n: nat)
    requires IsRun(ss, acts) && Reachable(ss[0]) && ss[0].term && n <= |acts|
    ensures |ss[n].handled| <= |ss[0].handled| + 1
    ensures ss[n].framesDone <= ss[0].framesDone + 1
    ensures LoopTakes(ss[n]) <= LoopTakes(ss[0]) && MediaTakes(ss[n]) <= MediaTakes(ss[0])
  {
    if n > 0 {
      AtMostOneMoreItem(ss, acts, n - 1);
      ReachableInv(ss[0]);
      RankBoundsSteps(ss, acts, n - 1);
      assert StepAt(ss, acts, n - 1);
      StepTakesNoMore(ss[n-1], acts[n-1]);
    }
  }

  /** The same for a client's thread, from the moment its own destructor has set its flag. */
  lemma {:induction false} ClientTakesAtMostOneMore(ss: seq<State>, acts: seq<Action>, c: Inst, n: nat)
    requires IsRun(ss, acts) && Reachable(ss[0]) && n <= |acts|
    requires c in ss[0].clients && ss[0].clients[c].term
    ensures c in ss[n].clients && ss[n].clients[c].term
    ensures |ss[n].clients[c].applied| <= |ss[0].clients[c].applied| + 1
    ensures ClientTakes(ss[n], c) <= ClientTakes(ss[0], c)
  {
    if n > 0 {
      ClientTakesAtMostOneMore(ss, acts, c, n - 1);
      ReachableInv(ss[0]);
      RunKeepsInv(ss, acts, n - 1);
      assert StepAt(ss, acts, n - 1);
      StepTakesNoMoreFrom(ss[n-1], acts[n-1], c);
    }
  }
}
