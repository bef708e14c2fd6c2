/** The registry is a function of what the loop has acted on. */
module StreamerRegistry {
  import opened StreamerModel
  import opened StreamerInvariant

  /** A request from the peer id. */
  predicate Asks(m: Msg, id: Id) { m.mode.Input? && m.kind.Request? && m.id == id }

  /** A disconnect reported by the client of id. */
  predicate Drops(m: Msg, id: Id) { m.mode.Output? && m.kind.Disconnect? && m.id == id }

  /** The registry after the first n handled messages: instance k is the one built for message k. */
  function Fold(ms: seq<Msg>, n: nat): map<Id, Inst>
    requires n <= |ms|
  {
    if n == 0 then map[]
    else
      var r, m := Fold(ms, n - 1), ms[n-1];
      if Asks(m, m.id) then (if m.id in r then r else r[m.id := n - 1])
      else if Drops(m, m.id) then r - {m.id}
      else r
  }

  /** How many handled messages have had their effect on the registry. */
  function Acted(s: State): nat {
    if (s.loop.LBuild? || s.loop.LEmplace? || s.loop.LErase?) && s.handled != []
    then |s.handled| - 1 else |s.handled|
  }

  lemma {:induction false} FoldPrefix(ms: seq<Msg>, ms': seq<Msg>, n: nat)
    requires n <= |ms| <= |ms'| && ms'[..|ms|] == ms
    ensures Fold(ms', n) == Fold(ms, n)
  {
    if n > 0 {
      FoldPrefix(ms, ms', n - 1);
      assert ms'[n-1] == ms'[..|ms|][n-1];
    }
  }

  ghost predicate FoldInv(s: State) {
    s.dtor.XRelease? || s.dtor.XDestroy? || s.dtor.XDone? || s.registry == Fold(s.handled, Acted(s))
  }

  lemma PopKeepsFold(s: State, underLock: bool)
    requires s.loop.LPop? && LoopEnabled(s) && FoldInv(s)
    ensures FoldInv(LoopStep(s, underLock))
  {
    if s.sigq.items != [] {
      var m := s.sigq.items[0];
      var s' := LoopStep(s, underLock);
      assert s'.handled == s.handled + [m];
      FoldPrefix(s.handled, s'.handled, |s.handled|);
      assert s'.handled[|s.handled|] == m;
    }
  }

  lemma ActedOne(s: State, underLock: bool)
    requires (s.loop.LEmplace? || s.loop.LErase?) && LoopInv(s) && LoopEnabled(s) && FoldInv(s)
    ensures FoldInv(LoopStep(s, underLock))
  {
    var n := |s.handled|;
    assert Fold(s.handled, n) == Fold(s.handled, n);
    assert s.handled[n-1] == s.loop.m;
  }

  lemma RestKeepsFold(s: State, underLock: bool)
    requires !s.loop.LEmplace? && !s.loop.LErase? && !s.loop.LPop? && LoopEnabled(s) && FoldInv(s)
    ensures FoldInv(LoopStep(s, underLock))
  {
    var s' := LoopStep(s, underLock);
    assert s'.registry == s.registry && s'.handled == s.handled && Acted(s') == Acted(s);
  }

  lemma LoopKeepsFold(s: State, underLock: bool)
    requires LoopInv(s) && LoopEnabled(s) && FoldInv(s)
    ensures FoldInv(LoopStep(s, underLock))
  {
    if s.loop.LPop? {
      PopKeepsFold(s, underLock);
    } else if s.loop.LEmplace? || s.loop.LErase? {
      ActedOne(s, underLock);
    } else {
      RestKeepsFold(s, underLock);
    }
  }

  lemma OutFrame(s: State, c: Inst, timeout: bool)
    requires OutEnabled(s, c, timeout)
    ensures var s' := OutStep(s, c, timeout);
            s'.registry == s.registry && s'.handled == s.handled && s'.loop == s.loop && s'.dtor == s.dtor
  {
  }

  lemma MediaFrame(s: State, c: Inst)
    requires MediaEnabled(s, c)
    ensures var s' := MediaStep(s, c);
            s'.registry == s.registry && s'.handled == s.handled && s'.loop == s.loop && s'.dtor == s.dtor
  {
  }

  lemma DtorKeepsFold(s: State, id: Id)
    requires DtorEnabled(s, id) && FoldInv(s)
    ensures FoldInv(DtorStep(s, id))
  {
  }

  lemma StepKeepsFold(s: State, a: Action)
    requires LoopInv(s) && ShutdownInv(s) && Enabled(s, a) && FoldInv(s)
    ensures FoldInv(Apply(s, a))
  {
    if a.Loop? {
      LoopKeepsFold(s, a.underLock);
    } else if a.Out? {
      OutFrame(s, a.c, a.timeout);
    } else if a.Media? {
      MediaFrame(s, a.c);
    } else if a.Dtor? {
      DtorKeepsFold(s, a.id);
    }
  }

  lemma {:induction false} RunKeepsFold(ss: seq<State>, acts: seq<Action>, i: nat)
    requires IsRun(ss, acts) && Init(ss[0]) && i <= |acts|
    ensures Inv(ss[i]) && FoldInv(ss[i])
  {
    if i == 0 {
      InitInv(ss[0]);
    } else {
      RunKeepsFold(ss, acts, i - 1);
      assert StepAt(ss, acts, i - 1);
      StepKeepsFold(ss[i-1], acts[i-1]);
      StepKeepsInv(ss[i-1], acts[i-1]);
    }
  }

  // ------------------------------------------------ what the fold says of one id

  /** The last of the first n messages that concerns id is a request. */
  ghost predicate LastIsRequest(ms: seq<Msg>, n: nat, id: Id)
    requires n <= |ms|
  {
    exists k :: 0 <= k < n && Asks(ms[k], id) && forall j :: k < j < n ==> !Drops(ms[j], id) && !Asks(ms[j], id)
  }

  /** Message k is the first request for id since the last disconnect of id, or since the start. */
  ghost predicate FirstRequestSinceDrop(ms: seq<Msg>, n: nat, id: Id, k: nat)
    requires n <= |ms|
  {
    && k < n && Asks(ms[k], id)
    && (forall j :: k < j < n ==> !Drops(ms[j], id))
    && (forall j :: 0 <= j < k && Asks(ms[j], id) ==> exists d :: j < d < k && Drops(ms[d], id))
  }

  /** Every request for id was followed by a disconnect of id. */
  ghost predicate AllDropped(ms: seq<Msg>, n: nat, id: Id)
    requires n <= |ms|
  {
    forall j :: 0 <= j < n && Asks(ms[j], id) ==> exists d :: j < d < n && Drops(ms[d], id)
  }

  lemma LastRequestStep(ms: seq<Msg>, n: nat, id: Id)
    requires n < |ms|
    ensures LastIsRequest(ms, n + 1, id) <==> Asks(ms[n], id) || (!Drops(ms[n], id) && LastIsRequest(ms, n, id))
  {
    if Asks(ms[n], id) {
      assert LastIsRequest(ms, n + 1, id);
    } else if !Drops(ms[n], id) && LastIsRequest(ms, n, id) {
      var k :| 0 <= k < n && Asks(ms[k], id) && forall j :: k < j < n ==> !Drops(ms[j], id) && !Asks(ms[j], id);
      assert LastIsRequest(ms, n + 1, id);
    }
  }

  lemma AllDroppedStep(ms: seq<Msg>, n: nat, id: Id)
    requires n < |ms| && !Asks(ms[n], id) && (Drops(ms[n], id) || AllDropped(ms, n, id))
    ensures AllDropped(ms, n + 1, id)
  {
    forall j | 0 <= j < n + 1 && Asks(ms[j], id)
      ensures exists d :: j < d < n + 1 && Drops(ms[d], id)
    {
      if !Drops(ms[n], id) {
        var d :| j < d < n && Drops(ms[d], id);
      }
    }
  }

  lemma FirstRequestStep(ms: seq<Msg>, n: nat, id: Id, k: nat)
    requires n < |ms| && !Drops(ms[n], id)
    requires FirstRequestSinceDrop(ms, n, id, k) || (k == n && Asks(ms[n], id) && AllDropped(ms, n, id))
    ensures FirstRequestSinceDrop(ms, n + 1, id, k)
  {
  }

  /** The fold, told by its history: for each id, the last request and disconnect decide. */
  lemma {:induction false} FoldOfId(ms: seq<Msg>, n: nat, id: Id)
    requires n <= |ms|
    ensures id in Fold(ms, n) <==> LastIsRequest(ms, n, id)
    ensures id in Fold(ms, n) ==> FirstRequestSinceDrop(ms, n, id, Fold(ms, n)[id])
    ensures id !in Fold(ms, n) ==> AllDropped(ms, n, id)
  {
    if n > 0 {
      FoldOfId(ms, n - 1, id);
      LastRequestStep(ms, n - 1, id);
      if id in Fold(ms, n) {
        FirstRequestStep(ms, n - 1, id, Fold(ms, n)[id]);
      } else {
        AllDroppedStep(ms, n - 1, id);
      }
    }
  }

  /**
   The registry in any reachable state, until the destructor empties it: an id is
   in it if and only if the last request or disconnect for it that the loop has
   acted on was a request, and the instance held is the one built for the first
   request since the last disconnect.
   */
  lemma RegistryIsFold(s: State, id: Id)
    requires Reachable(s) && !PastMediaJoin(s.dtor)
    ensures id in s.registry <==> LastIsRequest(s.handled, Acted(s), id)
    ensures id in s.registry ==>
              && FirstRequestSinceDrop(s.handled, Acted(s), id, s.registry[id])
              && s.registry[id] in s.clients && s.clients[s.registry[id]].id == id
  {
    var ss, acts :| IsRun(ss, acts) && Init(ss[0]) && ss[|acts|] == s;
    RunKeepsFold(ss, acts, |acts|);
    FoldOfId(s.handled, Acted(s), id);
    assert EntryOk(s, id);
  }
}
