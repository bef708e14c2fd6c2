/** The relay's callback, over the global map it updates in place. */
module RelayClass {
  import opened Wrappers
  import opened StreamerModel
  import opened RelayModel

  class Relay {
    var clients: map<Id, Entry>
    ghost var open: set<Conn>      // connections established and not yet closed

    ghost predicate Valid()
      reads this
    {
      RelayInv(clients, open)
    }

    constructor ()
      ensures Valid() && clients == map[] && open == {}
    {
      clients, open := map[], {};
    }

    /**
     LWS_CALLBACK_ESTABLISHED: registers the connection under the id in its path,
     replacing whoever had it, and then falls through to the receive case with the
     event's data (None when it does not parse as a message).
     */
    method OnEstablished(wsi: Conn, path: string, data: Option<Msg>) returns (written: Option<Delivery>)
      requires Valid() && wsi !in open
      modifies this
      ensures Valid() && open == old(open) + {wsi}
      ensures clients == AfterEstablished(old(clients), wsi, path)
      ensures written == if data.Some? then Forward(clients, wsi, data.value) else None
    {
      EstablishedKeepsInv(clients, open, wsi, path);
      if |path| > 1 {
        var id := path[1..];
        clients := clients[id := Entry(wsi, id)];
      }
      open := open + {wsi};
      written := OnReceive(wsi, data);
    }

    /** LWS_CALLBACK_RECEIVE: the message goes to the connection registered under its id, stamped with the sender's. */
    method OnReceive(wsi: Conn, data: Option<Msg>) returns (written: Option<Delivery>)
      requires Valid()
      ensures written == if data.Some? then Forward(clients, wsi, data.value) else None
    {
      if data == None {
        return None;
      }
      var message := data.value;
      if message.id !in clients {
        return None;
      }
      var dest := clients[message.id];
      var name: Option<Id> := None;
      var rest := clients.Keys;
      while rest != {} && name == None
        invariant rest <= clients.Keys
        invariant name == None ==> forall id :: id in clients && id !in rest ==> clients[id].wsi != wsi
        invariant name.Some? ==> NameOf(clients, wsi) == name
        decreases rest, name == None
      {
        var id :| id in rest;
        rest := rest - {id};
        if clients[id].wsi == wsi {
          NameIsUnique(clients, open, wsi, id);
          name := Some(clients[id].id);
        }
      }
      written := Some(Delivery(dest.wsi, Stamped(message, wsi, name)));
    }

    /** LWS_CALLBACK_CLOSED: every entry of this connection is erased, and no other. */
    method OnClosed(wsi: Conn)
      requires Valid()
      modifies this
      ensures Valid() && open == old(open) - {wsi}
      ensures clients == AfterClosed(old(clients), wsi)
    {
      ClosedKeepsInv(clients, open, wsi);
      var rest := clients.Keys;
      while rest != {}
        invariant rest <= old(clients).Keys && rest <= clients.Keys && open == old(open)
        invariant clients.Keys <= old(clients).Keys
        invariant forall id :: id in clients ==> clients[id] == old(clients)[id]
        invariant forall id :: id in old(clients) && id !in rest ==> (id in clients <==> old(clients)[id].wsi != wsi)
        decreases rest
      {
        var id :| id in rest;
        rest := rest - {id};
        if clients[id].wsi == wsi {
          clients := clients - {id};
        }
      }
      open := open - {wsi};
    }
  }
}
