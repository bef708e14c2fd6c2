/** The signalling relay's `clients` map as a value: what each websocket event makes of it, and what it forwards. */
module RelayModel {
  import opened Wrappers
  import opened StreamerModel

  datatype Entry = Entry(wsi: Conn, id: Id)

  type Clients = map<Id, Entry>

  /** The request path of a connection: "/" followed by the id it asks for; anything shorter registers nothing. */
  function AfterEstablished(clients: Clients, wsi: Conn, path: string): Clients {
    if |path| > 1 then clients[path[1..] := Entry(wsi, path[1..])] else clients
  }

  function AfterClosed(clients: Clients, wsi: Conn): Clients {
    map id | id in clients && clients[id].wsi != wsi :: clients[id]
  }

  ghost predicate Holds(clients: Clients, wsi: Conn, id: Id) {
    id in clients && clients[id].wsi == wsi
  }

  /** The id a connection is registered under, if any. */
  ghost function NameOf(clients: Clients, wsi: Conn): Option<Id> {
    if exists id :: Holds(clients, wsi, id) then
      var id :| Holds(clients, wsi, id);
      Some(clients[id].id)
    else None
  }

  /** The forwarded copy: the destination's id is replaced by the sender's, when the sender has one. */
  function Stamped(m: Msg, wsi: Conn, name: Option<Id>): Msg {
    m.(id := if name.Some? then name.value else m.id,
       origin := Peer(wsi, name))
  }

  datatype Delivery = Delivery(to: Conn, msg: Msg)

  ghost function Forward(clients: Clients, wsi: Conn, m: Msg): Option<Delivery> {
    if m.id in clients then Some(Delivery(clients[m.id].wsi, Stamped(m, wsi, NameOf(clients, wsi)))) else None
  }

  // -------------------------------------------------------------- invariant

  /** Every registered connection is open, under its own id, and under no other. */
  ghost predicate RelayInv(clients: Clients, open: set<Conn>) {
    && (forall id :: id in clients ==> clients[id].id == id && clients[id].wsi in open)
    && (forall i, j :: i in clients && j in clients && i != j ==> clients[i].wsi != clients[j].wsi)
  }

  lemma EstablishedKeepsInv(clients: Clients, open: set<Conn>, wsi: Conn, path: string)
    requires RelayInv(clients, open) && wsi !in open
    ensures RelayInv(AfterEstablished(clients, wsi, path), open + {wsi})
  {
  }

  lemma ClosedKeepsInv(clients: Clients, open: set<Conn>, wsi: Conn)
    requires RelayInv(clients, open)
    ensures RelayInv(AfterClosed(clients, wsi), open - {wsi})
  {
  }

  /** Whatever order the map is searched in, the sender found is the same. */
  lemma NameIsUnique(clients: Clients, open: set<Conn>, wsi: Conn, id: Id)
    requires RelayInv(clients, open)
    ensures Holds(clients, wsi, id) <==> NameOf(clients, wsi) == Some(id)
  {
    if exists i :: Holds(clients, wsi, i) {
      var i :| Holds(clients, wsi, i) && NameOf(clients, wsi) == Some(clients[i].id);
      assert id != i && id in clients ==> clients[id].wsi != clients[i].wsi;
    }
  }

  // ------------------------------------------------------------------- runs

  datatype Event =
    | Established(wsi: Conn, path: string)
    | Received(wsi: Conn)
    | Closed(wsi: Conn)

  datatype RelayState = RelayState(clients: Clients, open: set<Conn>)

  predicate EventEnabled(r: RelayState, e: Event) {
    match e
    case Established(wsi, _) => wsi !in r.open
    case Received(wsi) => wsi in r.open
    case Closed(wsi) => wsi in r.open
  }

  function AfterEvent(r: RelayState, e: Event): RelayState {
    match e
    case Established(wsi, path) => RelayState(AfterEstablished(r.clients, wsi, path), r.open + {wsi})
    case Received(_) => r
    case Closed(wsi) => RelayState(AfterClosed(r.clients, wsi), r.open - {wsi})
  }

  ghost predicate RelayRun(rs: seq<RelayState>, es: seq<Event>) {
    && |rs| == |es| + 1
    && forall i :: 0 <= i < |es| ==> EventEnabled(rs[i], es[i]) && rs[i+1] == AfterEvent(rs[i], es[i])
  }

  lemma {:induction false} RunKeepsRelayInv(rs: seq<RelayState>, es: seq<Event>, n: nat)
    requires RelayRun(rs, es) && RelayInv(rs[0].clients, rs[0].open) && n <= |es|
    ensures RelayInv(rs[n].clients, rs[n].open)
  {
    if n > 0 {
      RunKeepsRelayInv(rs, es, n - 1);
      var r, e := rs[n-1], es[n-1];
      if e.Established? {
        EstablishedKeepsInv(r.clients, r.open, e.wsi, e.path);
      } else if e.Closed? {
        ClosedKeepsInv(r.clients, r.open, e.wsi);
      }
    }
  }

  /**
   Return path.  At step i the connection registered as a sends to b, and b's
   connection gets it stamped a.  Whatever happened in between, if at step j both
   registrations stand, what b's connection sends to the id it was shown reaches
   a's connection stamped b.
   */
  lemma ReplyFindsSender(rs: seq<RelayState>, es: seq<Event>, i: nat, j: nat, a: Id, b: Id, m: Msg, reply: Msg)
    requires RelayRun(rs, es) && rs[0] == RelayState(map[], {}) && i <= j <= |es|
    requires a in rs[i].clients && b in rs[i].clients && m.id == b
    requires a in rs[j].clients && rs[j].clients[a] == rs[i].clients[a]
    requires b in rs[j].clients && rs[j].clients[b] == rs[i].clients[b]
    requires var d := Forward(rs[i].clients, rs[i].clients[a].wsi, m);
             d.Some? && reply.id == d.value.msg.id
    ensures var d := Forward(rs[i].clients, rs[i].clients[a].wsi, m);
            d.Some? && d.value.to == rs[i].clients[b].wsi && d.value.msg.id == a
    ensures var d := Forward(rs[j].clients, rs[j].clients[b].wsi, reply);
            d.Some? && d.value.to == rs[i].clients[a].wsi && d.value.msg.id == b
  {
    RunKeepsRelayInv(rs, es, i);
    RunKeepsRelayInv(rs, es, j);
    NameIsUnique(rs[i].clients, rs[i].open, rs[i].clients[a].wsi, a);
    NameIsUnique(rs[j].clients, rs[j].open, rs[j].clients[b].wsi, b);
  }

  /**
   A connection whose id was taken over by a later one closes: its successor
   stays registered, from the moment it took over for as long as it neither
   closes nor is itself overwritten.
   */
  lemma {:induction false} SuccessorSurvives(
      rs: seq<RelayState>, es: seq<Event>, i: nat, j: nat, id: Id, successor: Conn)
    requires RelayRun(rs, es) && i <= j <= |es|
    requires Holds(rs[i].clients, successor, id)
    requires forall k :: i <= k < j ==> es[k] != Closed(successor)
    requires forall k :: i <= k < j && es[k].Established? ==> !(|es[k].path| > 1 && es[k].path[1..] == id)
    ensures Holds(rs[j].clients, successor, id)
  {
    if i < j {
      SuccessorSurvives(rs, es, i, j - 1, id, successor);
      assert es[j-1] != Closed(successor);
    }
  }

  /**
   What answering to the id one was shown does: the answer comes back to the sender
   exactly when the sender is registered.  Otherwise the receiver was shown its own
   id, and its answer comes back to itself.
   */
  lemma ReplyReturnsIff(clients: Clients, open: set<Conn>, wsi: Conn, m: Msg, reply: Msg)
    requires RelayInv(clients, open) && m.id in clients
    requires var d := Forward(clients, wsi, m); d.Some? && reply.id == d.value.msg.id
    ensures var d, back := Forward(clients, wsi, m).value, Forward(clients, clients[m.id].wsi, reply);
            && d.to == clients[m.id].wsi && back.Some?
            && (back.value.to == wsi <==> exists id :: Holds(clients, wsi, id))
            && (back.value.to != wsi ==> back.value.to == d.to && back.value.msg.id == reply.id == m.id)
  {
    if exists id :: Holds(clients, wsi, id) {
      var id :| Holds(clients, wsi, id);
      NameIsUnique(clients, open, wsi, id);
    } else {
      NameIsUnique(clients, open, clients[m.id].wsi, m.id);
      assert Holds(clients, clients[m.id].wsi, m.id);
    }
  }
}
