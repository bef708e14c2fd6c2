/**
 WebRTCStreamer as the step relation of its threads; the class itself is in
 WebRTCStreamer.dfy.

 Threads: the signalling loop, the output-collecting thread it launches, the
 media thread, one thread per Client, the websocket callback, the peer
 connection callbacks, callers of pushData, and the thread that runs the
 destructor.  Each step is what one thread does between two points at which
 another thread can see a difference.  The queues are the atomic queues of
 BoundedFifo: a push or pop whose guard is false is a thread blocked in it.
 The registry's reader/writer lock is held by whoever is at a program point
 inside it; both policies of std::shared_mutex are covered (writerFirst).

 Client instances are numbered by the position, in the loop's log of handled
 messages, of the request they were built for.  Messages carry where they came
 from; no step reads that.
 */
module StreamerModel {
  import opened Wrappers
  import opened BoundedFifo

  type Id = string
  type Inst = nat
  type Conn = nat
  type Frame = nat

  const SIGNALING_CAPACITY: nat := 256
  const CLIENT_CAPACITY: nat := 32
  const FRAMES_CAPACITY: nat := 256

  datatype Mode = Input | Output

  datatype Kind = Request | Answer | Offer | Disconnect | Other

  /** Where a message was made: by a peer, under the name its connection had at the relay, or by a Client. */
  datatype Origin = Peer(conn: Conn, name: Option<Id>) | Made(inst: Inst)

  datatype Msg = Msg(id: Id, mode: Mode, kind: Kind, body: nat, origin: Origin)

  datatype ClientPc = CCheck | CPop | CApply(m: Msg) | CDone

  datatype Client = Client(
    id: Id,
    inq: Fifo<Msg>,
    outq: Fifo<Msg>,
    term: bool,
    pc: ClientPc,
    gone: bool,             // the destructor has returned
    accepted: seq<Msg>,     // log: messages its callbacks pushed into outq
    offered: seq<Frame>,    // log: frames it was given by sendFrame
    start: nat,             // log: media frames already broadcast when it was registered
    applied: seq<Msg>)      // log: answers its thread gave to the peer connection

  datatype LoopPc =
    | LCheck
    | LPop
    | LBuild(m: Msg, c: Inst)
    | LEmplace(m: Msg, c: Inst)                   // waits for the exclusive lock
    | LGet(m: Msg)
    | LSet(m: Msg, c: Inst)                       // in the client's signalingSet
    | LErase(m: Msg)                              // waits for the exclusive lock
    | LDestroy(c: Inst, stage: nat, locked: bool) // in ~Client, the lock still held or not
    | LSend(m: Msg)
    | LJoin
    | LDone

  datatype OutPc =
    | OCheck
    | OAcquire
    | OVisit(todo: set<Inst>)                     // inside traverse
    | OTake(todo: set<Inst>, c: Inst)             // in signalingGet of c
    | OPush(todo: set<Inst>, m: Msg)              // in _signalingQueue.push
    | ODone

  datatype MediaPc =
    | MCheck
    | MPop
    | MAcquire(f: Frame)
    | MVisit(f: Frame, todo: set<Inst>)
    | MDone

  datatype DtorPc =
    | XIdle
    | XStopSignaling
    | XCloseWs
    | XJoinLoop
    | XStopFrames
    | XJoinMedia
    | XRelease                                    // members are destroyed, the registry's clients with them
    | XDestroy(c: Inst, stage: nat)
    | XDone

  datatype State = State(
    writerFirst: bool,
    term: bool,
    sigq: Fifo<Msg>,
    framesq: Fifo<Frame>,
    registry: map<Id, Inst>,
    clients: map<Inst, Client>,
    loop: LoopPc,
    out: OutPc,
    media: MediaPc,
    dtor: DtorPc,
    ws: Option<Msg>,           // the websocket callback is pushing this message
    handled: seq<Msg>,         // log: messages the loop popped
    sent: seq<Msg>,            // log: messages the loop sent on the websocket
    framesIn: seq<Frame>,      // log: frames accepted by pushData
    framesDone: nat)           // log: frames whose broadcast is complete

  datatype Action =
    | Loop(underLock: bool)              // underLock: a refused emplace destroys its argument before unlocking
    | Out(c: Inst, timeout: bool)
    | Media(c: Inst)
    | ClientThread(c: Inst)
    | Dtor(id: Id)
    | WsReceive(m: Msg)
    | WsPush
    | Callback(c: Inst, kind: Kind, body: nat)
    | PushData(f: Frame)

  // ------------------------------------------------------------------ lock

  predicate OutReads(s: State) { s.out.OVisit? || s.out.OTake? || s.out.OPush? }

  predicate MediaReads(s: State) { s.media.MVisit? }

  predicate Writing(s: State) { s.loop.LDestroy? && s.loop.locked }

  predicate WriterWaits(s: State) { s.loop.LEmplace? || s.loop.LErase? }

  predicate MayRead(s: State) { !Writing(s) && !(s.writerFirst && WriterWaits(s)) }

  predicate MayWrite(s: State) { !OutReads(s) && !MediaReads(s) }

  // --------------------------------------------------------------- clients

  function NewClient(id: Id): Client {
    Client(id, Fifo([], CLIENT_CAPACITY, false), Fifo([], CLIENT_CAPACITY, false),
           false, CCheck, false, [], [], 0, [])
  }

  const JOIN_STAGE: nat := 4

  /** ~Client, statement by statement: set the flag, stop both queues, close the peer connection, join. */
  predicate CanDestroyStep(k: Client, stage: nat) {
    stage < JOIN_STAGE || k.pc.CDone?
  }

  function DestroyStep(k: Client, stage: nat): Client {
    if stage == 0 then k.(term := true)
    else if stage == 1 then k.(inq := k.inq.(stopped := true))
    else if stage == 2 then k.(outq := k.outq.(stopped := true))
    else if stage == 3 then k
    else k.(gone := true)
  }

  predicate ClientEnabled(s: State, c: Inst) {
    && c in s.clients
    && var k := s.clients[c];
    match k.pc
    case CCheck => true
    case CPop => CanPop(k.inq)
    case CApply(_) => true
    case CDone => false
  }

  function ClientStep(k: Client): Client {
    match k.pc
    case CCheck => k.(pc := if k.term then CDone else CPop)
    case CPop =>
      if k.inq.items == [] then k.(pc := CCheck)
      else k.(inq := AfterPop(k.inq), pc := CApply(k.inq.items[0]))
    case CApply(m) => k.(pc := CCheck, applied := k.applied + [m])
    case CDone => k
  }

  // ---------------------------------------------------------- the loop

  predicate LoopEnabled(s: State) {
    match s.loop
    case LPop => CanPop(s.sigq)
    case LEmplace(_, c) => MayWrite(s) && c in s.clients
    case LSet(_, c) => c in s.clients && CanPush(s.clients[c].inq)
    case LErase(_) => MayWrite(s)
    case LDestroy(c, stage, _) => c in s.clients && CanDestroyStep(s.clients[c], stage)
    case LJoin => s.out.ODone?
    case LDone => false
    case _ => true
  }

  /** Which handler a popped message goes to; c is its position in the log. */
  function Dispatch(m: Msg, c: Inst): LoopPc {
    match m.mode
    case Input =>
      if m.kind.Request? then LBuild(m, c) else if m.kind.Answer? then LGet(m) else LCheck
    case Output =>
      if m.kind.Disconnect? then LErase(m) else LSend(m)
  }

  function LoopStep(s: State, underLock: bool): State
    requires LoopEnabled(s)
  {
    match s.loop
    case LCheck => s.(loop := if s.term then LJoin else LPop)
    case LPop =>
      if s.sigq.items == [] then s.(loop := LCheck)
      else s.(sigq := AfterPop(s.sigq), handled := s.handled + [s.sigq.items[0]],
              loop := Dispatch(s.sigq.items[0], |s.handled|))
    case LBuild(m, c) => s.(clients := s.clients[c := NewClient(m.id)], loop := LEmplace(m, c))
    case LEmplace(m, c) =>
      if m.id in s.registry then s.(loop := LDestroy(c, 0, underLock))
      else s.(registry := s.registry[m.id := c],
              clients := s.clients[c := s.clients[c].(start := s.framesDone)],
              loop := LCheck)
    case LGet(m) =>
      s.(loop := if m.id in s.registry then LSet(m, s.registry[m.id]) else LCheck)
    case LSet(m, c) =>
      var k := s.clients[c];
      s.(clients := s.clients[c := k.(inq := AfterPush(k.inq, m))], loop := LCheck)
    case LErase(m) =>
      if m.id in s.registry
      then s.(registry := s.registry - {m.id}, loop := LDestroy(s.registry[m.id], 0, true))
      else s.(loop := LCheck)
    case LDestroy(c, stage, locked) =>
      s.(clients := s.clients[c := DestroyStep(s.clients[c], stage)],
         loop := if stage < JOIN_STAGE then LDestroy(c, stage + 1, locked) else LCheck)
    case LSend(m) => s.(sent := s.sent + [m], loop := LCheck)
    case LJoin => s.(loop := LDone)
    case LDone => s
  }

  // -------------------------------------------------- the output thread

  predicate OutEnabled(s: State, c: Inst, timeout: bool) {
    match s.out
    case OAcquire => MayRead(s)
    case OVisit(todo) => todo == {} || c in todo
    case OTake(_, k) => k in s.clients && (CanPop(s.clients[k].outq) || timeout)
    case OPush(_, _) => CanPush(s.sigq)
    case ODone => false
    case OCheck => true
  }

  function OutStep(s: State, c: Inst, timeout: bool): State
    requires OutEnabled(s, c, timeout)
  {
    match s.out
    case OCheck => s.(out := if s.term then ODone else OAcquire)
    case OAcquire => s.(out := OVisit(s.registry.Values))
    case OVisit(todo) => if todo == {} then s.(out := OCheck) else s.(out := OTake(todo - {c}, c))
    case OTake(todo, k) =>
      var q := s.clients[k].outq;
      if q.items == [] then s.(out := OVisit(todo))
      else s.(clients := s.clients[k := s.clients[k].(outq := AfterPop(q))], out := OPush(todo, q.items[0]))
    case OPush(todo, m) => s.(sigq := AfterPush(s.sigq, m), out := OVisit(todo))
    case ODone => s
  }

  // --------------------------------------------------- the media thread

  predicate MediaEnabled(s: State, c: Inst) {
    match s.media
    case MPop => CanPop(s.framesq)
    case MAcquire(_) => MayRead(s)
    case MVisit(_, todo) => todo == {} || (c in todo && c in s.clients)
    case MDone => false
    case MCheck => true
  }

  function MediaStep(s: State, c: Inst): State
    requires MediaEnabled(s, c)
  {
    match s.media
    case MCheck => s.(media := if s.term then MDone else MPop)
    case MPop =>
      if s.framesq.items == [] then s.(media := MCheck)
      else s.(framesq := AfterPop(s.framesq), media := MAcquire(s.framesq.items[0]))
    case MAcquire(f) => s.(media := MVisit(f, s.registry.Values))
    case MVisit(f, todo) =>
      if todo == {} then s.(media := MCheck, framesDone := s.framesDone + 1)
      else
        var k := s.clients[c];
        s.(clients := s.clients[c := k.(offered := k.offered + [f])], media := MVisit(f, todo - {c}))
    case MDone => s
  }

  // ------------------------------------------------------ the destructor

  predicate DtorEnabled(s: State, id: Id) {
    match s.dtor
    case XJoinLoop => s.loop.LDone?
    case XJoinMedia => s.media.MDone?
    case XRelease => |s.registry| == 0 || id in s.registry
    case XDestroy(c, stage) => c in s.clients && CanDestroyStep(s.clients[c], stage)
    case XDone => false
    case _ => true
  }

  function DtorStep(s: State, id: Id): State
    requires DtorEnabled(s, id)
  {
    match s.dtor
    case XIdle => s.(term := true, dtor := XStopSignaling)
    case XStopSignaling => s.(sigq := s.sigq.(stopped := true), dtor := XCloseWs)
    case XCloseWs => s.(dtor := XJoinLoop)
    case XJoinLoop => s.(dtor := XStopFrames)
    case XStopFrames => s.(framesq := s.framesq.(stopped := true), dtor := XJoinMedia)
    case XJoinMedia => s.(dtor := XRelease)
    case XRelease =>
      if id in s.registry then s.(registry := s.registry - {id}, dtor := XDestroy(s.registry[id], 0))
      else s.(dtor := XDone)
    case XDestroy(c, stage) =>
      s.(clients := s.clients[c := DestroyStep(s.clients[c], stage)],
         dtor := if stage < JOIN_STAGE then XDestroy(c, stage + 1) else XRelease)
    case XDone => s
  }

  // ------------------------------------------------------- all the steps

  /** What a callback of instance c pushes: a disconnect, or the local description. */
  function CallbackMsg(id: Id, c: Inst, kind: Kind, body: nat): Msg {
    Msg(id, Output, kind, body, Made(c))
  }

  predicate Enabled(s: State, a: Action) {
    match a
    case Loop(_) => LoopEnabled(s)
    case Out(c, timeout) => OutEnabled(s, c, timeout)
    case Media(c) => MediaEnabled(s, c)
    case ClientThread(c) => ClientEnabled(s, c)
    case Dtor(id) => DtorEnabled(s, id)
    case WsReceive(m) => s.ws == None && m.origin.Peer?
    case WsPush => s.ws.Some? && CanPush(s.sigq)
    case Callback(c, kind, _) =>
      c in s.clients && !s.clients[c].gone && CanPush(s.clients[c].outq) && !kind.Request?
    case PushData(_) => CanPush(s.framesq)
  }

  function Apply(s: State, a: Action): State
    requires Enabled(s, a)
  {
    match a
    case Loop(underLock) => LoopStep(s, underLock)
    case Out(c, timeout) => OutStep(s, c, timeout)
    case Media(c) => MediaStep(s, c)
    case ClientThread(c) => s.(clients := s.clients[c := ClientStep(s.clients[c])])
    case Dtor(id) => DtorStep(s, id)
    case WsReceive(m) => s.(ws := Some(m.(mode := Input)))
    case WsPush => s.(sigq := AfterPush(s.sigq, s.ws.value), ws := None)
    case Callback(c, kind, body) =>
      var k := s.clients[c];
      var m := CallbackMsg(k.id, c, kind, body);
      s.(clients := s.clients[c := k.(outq := AfterPush(k.outq, m),
                                      accepted := if k.outq.stopped then k.accepted else k.accepted + [m])])
    case PushData(f) =>
      s.(framesq := AfterPush(s.framesq, f),
         framesIn := if s.framesq.stopped then s.framesIn else s.framesIn + [f])
  }

  predicate Init(s: State) {
    s == State(s.writerFirst, false, Fifo([], SIGNALING_CAPACITY, false), Fifo([], FRAMES_CAPACITY, false),
               map[], map[], LCheck, OCheck, MCheck, XIdle, None, [], [], [], 0)
  }

  /** Step i of a run. */
  ghost predicate StepAt(ss: seq<State>, acts: seq<Action>, i: nat)
    requires i < |acts| && |ss| == |acts| + 1
  {
    Enabled(ss[i], acts[i]) && ss[i+1] == Apply(ss[i], acts[i])
  }

  ghost predicate IsRun(ss: seq<State>, acts: seq<Action>) {
    |ss| == |acts| + 1 && forall i :: 0 <= i < |acts| ==> StepAt(ss, acts, i)
  }

  ghost predicate Reachable(s: State) {
    exists ss: seq<State>, acts: seq<Action> :: IsRun(ss, acts) && Init(ss[0]) && ss[|acts|] == s
  }
}
