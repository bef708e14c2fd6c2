/** Whom the relay knows under which id, told by the connections' history, and what that means for delivery. */
module RelayRegistry {
  import opened StreamerModel
  import opened RelayModel

  /** The event registers connection w under id: the path of the request is "/" and the id. */
  predicate Names(e: Event, w: Conn, id: Id) {
    e.Established? && e.wsi == w && e.path != "" && e.path[1..] == id && id != ""
  }

  /** The event registers some connection under id. */
  predicate TakesName(e: Event, id: Id) { e.Established? && Names(e, e.wsi, id) }

  /** The last of the first n events that named id was w's, and w has not been closed since. */
  ghost predicate NamedLast(es: seq<Event>, n: nat, w: Conn, id: Id)
    requires n <= |es|
  {
    exists k :: 0 <= k < n && Names(es[k], w, id)
                && forall j :: k < j < n ==> !TakesName(es[j], id) && es[j] != Closed(w)
  }

  lemma NamedLastStep(es: seq<Event>, n: nat, w: Conn, id: Id)
    requires n < |es|
    ensures NamedLast(es, n + 1, w, id) <==>
            Names(es[n], w, id) || (!TakesName(es[n], id) && es[n] != Closed(w) && NamedLast(es, n, w, id))
  {
    if Names(es[n], w, id) {
      assert NamedLast(es, n + 1, w, id);
    } else if !TakesName(es[n], id) && es[n] != Closed(w) && NamedLast(es, n, w, id) {
      var k :| 0 <= k < n && Names(es[k], w, id)
               && forall j :: k < j < n ==> !TakesName(es[j], id) && es[j] != Closed(w);
      assert NamedLast(es, n + 1, w, id);
    }
  }

  lemma HoldsStep(r: RelayState, e: Event, w: Conn, id: Id)
    ensures Holds(AfterEvent(r, e).clients, w, id) <==>
            Names(e, w, id) || (!TakesName(e, id) && e != Closed(w) && Holds(r.clients, w, id))
  {
  }

  /**
   The registry over any run from the empty map: a connection holds an id if and
   only if it was the last to ask for it and has not been closed since.
   */
  lemma {:induction false} HoldsIffNamedLast(rs: seq<RelayState>, es: seq<Event>, n: nat, w: Conn, id: Id)
    requires RelayRun(rs, es) && rs[0] == RelayState(map[], {}) && n <= |es|
    ensures Holds(rs[n].clients, w, id) <==> NamedLast(es, n, w, id)
  {
    if n > 0 {
      HoldsIffNamedLast(rs, es, n - 1, w, id);
      NamedLastStep(es, n - 1, w, id);
      HoldsStep(rs[n-1], es[n-1], w, id);
    }
  }

  /**
   Delivery: a message, whoever sends it, is written to the connection that was the
   last to ask for its id, if that one has not been closed since, and otherwise to
   nobody; the copy keeps its mode, kind and body.
   */
  lemma DeliveredIff(rs: seq<RelayState>, es: seq<Event>, n: nat, sender: Conn, m: Msg, w: Conn)
    requires RelayRun(rs, es) && rs[0] == RelayState(map[], {}) && n <= |es|
    ensures var d := Forward(rs[n].clients, sender, m);
            && (d.Some? && d.value.to == w <==> NamedLast(es, n, w, m.id))
            && (d.Some? ==> d.value.msg.mode == m.mode && d.value.msg.kind == m.kind && d.value.msg.body == m.body)
  {
    HoldsIffNamedLast(rs, es, n, w, m.id);
  }

  /** What the copy is stamped with: the id its sender was the last to ask for, or the message's own. */
  lemma StampedIff(rs: seq<RelayState>, es: seq<Event>, n: nat, sender: Conn, m: Msg, id: Id)
    requires RelayRun(rs, es) && rs[0] == RelayState(map[], {}) && n <= |es|
    requires Forward(rs[n].clients, sender, m).Some?
    ensures var shown := Forward(rs[n].clients, sender, m).value.msg;
            && (NamedLast(es, n, sender, id) ==> shown.id == id)
            && ((forall i :: !NamedLast(es, n, sender, i)) ==> shown.id == m.id)
  {
    RunKeepsRelayInv(rs, es, n);
    HoldsIffNamedLast(rs, es, n, sender, id);
    NameIsUnique(rs[n].clients, rs[n].open, sender, id);
    if forall i :: !NamedLast(es, n, sender, i) {
      forall i
        ensures !Holds(rs[n].clients, sender, i)
      {
        HoldsIffNamedLast(rs, es, n, sender, i);
      }
    }
  }
}
