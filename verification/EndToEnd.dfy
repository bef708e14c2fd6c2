/**
 The streamer, the relay and the peers' connections as one system: the streamer's
 connection `srv` is registered at the relay as "server", the streamer's sent
 messages reach the relay in order, and what the relay writes to `srv` reaches
 the websocket callback in order.  Peers may connect, send anything and leave at
 any time.
 */
module EndToEnd {
  import opened Wrappers
  import opened StreamerModel
  import opened StreamerInvariant
  import opened StreamerStall
  import opened StreamerMessages
  import opened RelayModel

  const SERVER: Id := "server"

  /** Log entry: while `to` was registered as asId, the relay wrote it `shown`, a copy of what `srv` sent. */
  datatype Receipt = Receipt(to: Conn, asId: Id, source: Msg, shown: Msg)

  datatype Net = Net(streamer: State, relay: RelayState, srv: Conn, taken: nat, down: seq<Msg>, got: seq<Receipt>)

  datatype NetAction =
    | Streams(a: Action)              // a step of the streamer
    | Delivers                        // the relay's next message arrives at the streamer's websocket
    | PeerSends(conn: Conn, m: Msg)   // the relay handles a message of a peer
    | ServerSends                     // the relay handles the streamer's next message
    | Connects(conn: Conn, path: string)
    | Leaves(conn: Conn)

  predicate NetEnabled(n: Net, a: NetAction) {
    match a
    case Streams(b) => Enabled(n.streamer, b) && !b.WsReceive?
    case Delivers => n.down != [] && n.down[0].origin.Peer? && n.streamer.ws == None
    case PeerSends(conn, _) => conn in n.relay.open && conn != n.srv
    case ServerSends => n.taken < |n.streamer.sent|
    case Connects(conn, _) => conn !in n.relay.open
    case Leaves(conn) => conn in n.relay.open && conn != n.srv
  }

  /** The relay handles m from connection wsi. */
  ghost function Handle(n: Net, wsi: Conn, m: Msg): Net {
    match Forward(n.relay.clients, wsi, m)
    case None => n
    case Some(d) =>
      if d.to == n.srv then n.(down := n.down + [d.msg])
      else n.(got := n.got + [Receipt(d.to, m.id, m, d.msg)])
  }

  ghost function NetApply(n: Net, a: NetAction): Net
    requires NetEnabled(n, a)
  {
    match a
    case Streams(b) => n.(streamer := Apply(n.streamer, b))
    case Delivers => n.(streamer := Apply(n.streamer, WsReceive(n.down[0])), down := n.down[1..])
    case PeerSends(conn, m) => Handle(n, conn, m.(origin := Peer(conn, None)))
    case ServerSends => Handle(n, n.srv, n.streamer.sent[n.taken]).(taken := n.taken + 1)
    case Connects(conn, path) => n.(relay := AfterEvent(n.relay, Established(conn, path)))
    case Leaves(conn) => n.(relay := AfterEvent(n.relay, Closed(conn)))
  }

  ghost predicate NetInit(n: Net) {
    && Init(n.streamer)
    && n.relay == RelayState(map[SERVER := Entry(n.srv, SERVER)], {n.srv})
    && n.taken == 0 && n.down == [] && n.got == []
  }

  ghost predicate NetRun(ns: seq<Net>, acts: seq<NetAction>) {
    && |ns| == |acts| + 1
    && forall i :: 0 <= i < |acts| ==> NetEnabled(ns[i], acts[i]) && ns[i+1] == NetApply(ns[i], acts[i])
  }

  ghost predicate NetReachable(n: Net) {
    exists ns: seq<Net>, acts: seq<NetAction> :: NetRun(ns, acts) && NetInit(ns[0]) && ns[|acts|] == n
  }

  // --------------------------------------------------------------- invariant

  /** An input's id is the name its sender had at the relay; without one, the id the relay looked up, "server". */
  predicate TrueName(m: Msg) {
    m.origin.Peer? && m.id == (if m.origin.name.Some? then m.origin.name.value else SERVER)
  }

  ghost predicate InputsNamed(ms: seq<Msg>) {
    forall i :: 0 <= i < |ms| && ms[i].mode.Input? ==> TrueName(ms[i])
  }

  ghost predicate NamesInv(s: State) {
    InputsNamed(s.handled) && InputsNamed(s.sigq.items) && (s.ws.Some? ==> TrueName(s.ws.value))
  }

  /** What a client was given had been handled by the loop. */
  ghost predicate Given(k: Client, handled: seq<Msg>) {
    && (forall i :: 0 <= i < |k.inq.items| ==> k.inq.items[i] in handled)
    && (forall i :: 0 <= i < |k.applied| ==> k.applied[i] in handled)
    && (k.pc.CApply? ==> k.pc.m in handled)
  }

  ghost predicate GivenInv(s: State) {
    forall c {:trigger Given(s.clients[c], s.handled)} :: c in s.clients ==> Given(s.clients[c], s.handled)
  }

  /** A copy of what an instance made was written to the connection registered under that instance's id. */
  ghost predicate ReceiptOk(r: Receipt, clients: map<Inst, Client>) {
    r.source.origin.Made? ==>
      r.source.origin.inst in clients && clients[r.source.origin.inst].id == r.asId
  }

  ghost predicate NetInv(n: Net) {
    && Reachable(n.streamer)
    && RelayInv(n.relay.clients, n.relay.open) && n.srv in n.relay.open
    && (forall id :: id in n.relay.clients && n.relay.clients[id].wsi == n.srv ==> id == SERVER)
    && (forall i :: 0 <= i < |n.down| ==> TrueName(n.down[i]))
    && NamesInv(n.streamer) && GivenInv(n.streamer)
    && (forall i :: 0 <= i < |n.got| ==> ReceiptOk(n.got[i], n.streamer.clients))
  }

  lemma QueueEffectKeepsNames(s: State, a: Action, s': State)
    requires NamesInv(s) && TagsInv(s) && QueueEffect(s, a, s')
    ensures InputsNamed(s'.handled) && InputsNamed(s'.sigq.items)
  {
    if s.out.OPush? {
      assert s.out.m.mode.Output?;
    }
  }

  lemma StepKeepsNames(s: State, a: Action)
    requires NamesInv(s) && TagsInv(s) && Enabled(s, a)
    requires a.WsReceive? ==> TrueName(a.m)
    ensures NamesInv(Apply(s, a))
  {
    StepQueueEffect(s, a);
    QueueEffectKeepsNames(s, a, Apply(s, a));
  }

  lemma GivenGrows(k: Client, ms: seq<Msg>, ms': seq<Msg>)
    requires Given(k, ms) && ms <= ms'
    ensures Given(k, ms')
  {
  }

  lemma SetKeepsGiven(s: State, underLock: bool, c: Inst)
    requires LoopInv(s) && LoopEnabled(s) && s.loop.LSet? && c in s.clients && Given(s.clients[c], s.handled)
    ensures c in LoopStep(s, underLock).clients && Given(LoopStep(s, underLock).clients[c], s.handled)
    ensures LoopStep(s, underLock).handled == s.handled
  {
    assert s.loop.m in s.handled;
  }

  lemma LoopKeepsGiven(s: State, underLock: bool)
    requires LoopInv(s) && GivenInv(s) && LoopEnabled(s)
    ensures GivenInv(LoopStep(s, underLock))
  {
    var s' := LoopStep(s, underLock);
    LoopNames(s, underLock);
    forall c | c in s'.clients
      ensures Given(s'.clients[c], s'.handled)
    {
      if c in s.clients {
        assert Given(s.clients[c], s.handled);
        if s.loop.LSet? {
          SetKeepsGiven(s, underLock, c);
        } else if !s.loop.LBuild? {
          LoopKeepsInput(s, underLock, c);
          LoopQueueEffect(s, underLock);
          GivenGrows(s.clients[c], s.handled, s'.handled);
        }
      }
    }
  }

  lemma StepKeepsGiven(s: State, a: Action)
    requires LoopInv(s) && GivenInv(s) && Enabled(s, a)
    ensures GivenInv(Apply(s, a))
  {
    if a.Loop? {
      LoopKeepsGiven(s, a.underLock);
    } else {
      StepQueueEffect(s, a);
      StepNames(s, a);
      var s' := Apply(s, a);
      forall c | c in s'.clients
        ensures Given(s'.clients[c], s'.handled)
      {
        assert c in s.clients && Given(s.clients[c], s.handled);
        StepInput(s, a, c);
      }
    }
  }

  /** The net's streamer part of a net step, on its own. */
  lemma StreamerStepKeepsInv(n: Net, a: Action, s': State)
    requires NetInv(n) && Enabled(n.streamer, a) && s' == Apply(n.streamer, a)
    requires a.WsReceive? ==> TrueName(a.m)
    ensures Reachable(s') && NamesInv(s') && GivenInv(s')
    ensures forall i :: 0 <= i < |n.got| ==> ReceiptOk(n.got[i], s'.clients)
  {
    var s := n.streamer;
    ReachableMessages(s);
    var s'' := Extend(s, a);
    StepKeepsNames(s, a);
    StepKeepsGiven(s, a);
    StepNames(s, a);
    forall i | 0 <= i < |n.got|
      ensures ReceiptOk(n.got[i], s'.clients)
    {
      assert ReceiptOk(n.got[i], s.clients);
    }
  }

  /** The relay handles a message of any connection; a message of `srv` is one the streamer sent. */
  lemma HandleKeepsInv(n: Net, wsi: Conn, m: Msg)
    requires NetInv(n)
    requires if wsi == n.srv then m in n.streamer.sent else m.origin.Peer?
    ensures NetInv(Handle(n, wsi, m))
  {
    SentIsHandledOutputs(n.streamer);
    if m.id in n.relay.clients {
      var name := NameOf(n.relay.clients, wsi);
      if name.Some? {
        NameIsUnique(n.relay.clients, n.relay.open, wsi, name.value);
      }
    }
  }

  lemma NetStepKeepsInv(n: Net, a: NetAction)
    requires NetInv(n) && NetEnabled(n, a)
    ensures NetInv(NetApply(n, a))
  {
    if a.Streams? {
      StreamerStepKeepsInv(n, a.a, Apply(n.streamer, a.a));
    } else if a.Delivers? {
      assert TrueName(n.down[0]);
      StreamerStepKeepsInv(n, WsReceive(n.down[0]), Apply(n.streamer, WsReceive(n.down[0])));
    } else if a.PeerSends? {
      HandleKeepsInv(n, a.conn, a.m.(origin := Peer(a.conn, None)));
    } else if a.ServerSends? {
      HandleKeepsInv(n, n.srv, n.streamer.sent[n.taken]);
    } else if a.Connects? {
      EstablishedKeepsInv(n.relay.clients, n.relay.open, a.conn, a.path);
    } else {
      ClosedKeepsInv(n.relay.clients, n.relay.open, a.conn);
    }
  }

  lemma NetInitInv(n: Net)
    requires NetInit(n)
    ensures NetInv(n)
  {
    var ss, acts: seq<Action> := [n.streamer], [];
    assert IsRun(ss, acts) && Init(ss[0]) && ss[|acts|] == n.streamer;
  }

  lemma {:induction false} NetRunKeepsInv(ns: seq<Net>, acts: seq<NetAction>, i: nat)
    requires NetRun(ns, acts) && NetInit(ns[0]) && i <= |acts|
    ensures NetInv(ns[i])
  {
    if i == 0 {
      NetInitInv(ns[0]);
    } else {
      NetRunKeepsInv(ns, acts, i - 1);
      NetStepKeepsInv(ns[i-1], acts[i-1]);
    }
  }

  lemma NetReachableInv(n: Net)
    requires NetReachable(n)
    ensures NetInv(n)
  {
    var ns, acts :| NetRun(ns, acts) && NetInit(ns[0]) && ns[|acts|] == n;
    NetRunKeepsInv(ns, acts, |acts|);
  }

  // ---------------------------------------------------------------- theorems

  /**
   Outwards: whatever an instance makes, an offer for one, and the streamer sends,
   the relay writes to the connection registered under that instance's id at that
   moment, or to nobody; while the streamer is registered as "server" the copy is
   stamped "server" and otherwise unchanged.
   */
  lemma OfferReachesItsPeerOnly(n: Net)
    requires NetReachable(n) && NetEnabled(n, ServerSends)
    ensures var m := n.streamer.sent[n.taken];
            m.origin.Made? && m.origin.inst in n.streamer.clients && n.streamer.clients[m.origin.inst].id == m.id
    ensures var m, n', reg := n.streamer.sent[n.taken], NetApply(n, ServerSends), n.relay.clients;
            if m.id in reg && reg[m.id].wsi != n.srv then
              && n'.down == n.down
              && |n'.got| == |n.got| + 1 && n'.got[..|n.got|] == n.got
              && n'.got[|n.got|].to == reg[m.id].wsi && n'.got[|n.got|].source == m
              && (Holds(reg, n.srv, SERVER) ==>
                    n'.got[|n.got|].shown == m.(id := SERVER, origin := Peer(n.srv, Some(SERVER))))
            else n'.got == n.got
  {
    NetReachableInv(n);
    SentIsHandledOutputs(n.streamer);
    assert n.streamer.sent[n.taken] in n.streamer.sent;
    NameIsUnique(n.relay.clients, n.relay.open, n.srv, SERVER);
  }

  /** The same over the whole run: an instance's message was only ever written to a peer registered under its id. */
  lemma EveryReceiptIsItsPeers(n: Net, i: nat)
    requires NetReachable(n) && i < |n.got| && n.got[i].source.origin.Made?
    ensures n.got[i].source.origin.inst in n.streamer.clients
    ensures n.streamer.clients[n.got[i].source.origin.inst].id == n.got[i].asId
  {
    NetReachableInv(n);
    assert ReceiptOk(n.got[i], n.streamer.clients);
  }

  /**
   Inwards: an answer in the queue of a client, or already applied by it, came
   through the relay from a connection registered under that client's id; or, for
   a client called "server", possibly from an unregistered one.
   */
  lemma AnswerComesFromItsPeer(n: Net, c: Inst, m: Msg)
    requires NetReachable(n) && c in n.streamer.clients
    requires m in n.streamer.clients[c].inq.items || m in n.streamer.clients[c].applied
    ensures m.origin.Peer? && m.mode.Input? && m.kind.Answer?
    ensures n.streamer.clients[c].id == if m.origin.name.Some? then m.origin.name.value else SERVER
  {
    NetReachableInv(n);
    AnswersReachTheirClient(n.streamer, c);
    assert Given(n.streamer.clients[c], n.streamer.handled);
    assert m in n.streamer.handled;
  }

  /** And the request an instance was built for came from a connection registered under its id, as above. */
  lemma ClientBelongsToItsPeer(n: Net, c: Inst)
    requires NetReachable(n) && c in n.streamer.clients
    ensures c < |n.streamer.handled|
    ensures var m := n.streamer.handled[c];
            && m.mode.Input? && m.kind.Request? && m.origin.Peer?
            && n.streamer.clients[c].id == if m.origin.name.Some? then m.origin.name.value else SERVER
  {
    NetReachableInv(n);
    ReachableMessages(n.streamer);
    assert ClientOk(n.streamer, c);
    assert TrueName(n.streamer.handled[c]);
  }
}
