/** What makes the server endpoint tell its user about a connection, and what takes one out of its map. */
module EndpointCauses {
  import opened Prelude
  import opened ServerConnector
  import opened ServerEndpoint

  ghost predicate ToldConnected(h: Hub, id: nat) {
    id in h.told && h.told[id] != [] && h.told[id][0] == Connected
  }

  ghost predicate ToldDisconnected(h: Hub, id: nat) {
    id in h.told && h.told[id] == [Connected, Disconnected]
  }

  /** The connection has been in the map and is in it no more. */
  ghost predicate OutOfMap(h: Hub, id: nat) {
    id in h.told && id !in h.endpoints
  }

  /** The strand runs the report of connection id, and the endpoint is not finalizing. */
  ghost predicate Admits(s: Server, e: Happening, id: nat) {
    && e.StrandRuns? && s.delivered < |s.conn.posted| && s.conn.posted[s.delivered] == NewConnection(id)
    && !s.hub.finalizing
  }

  ghost predicate AdmittedAt(tr: seq<Server>, m: nat, id: nat)
    requires m + 1 < |tr|
  {
    exists e :: CanHappen(tr[m], e) && tr[m + 1] == After(tr[m], e) && Admits(tr[m], e, id)
  }

  ghost predicate LostAt(tr: seq<Server>, m: nat, id: nat)
    requires m + 1 < |tr|
  {
    CanHappen(tr[m], ConnectionLost(id)) && tr[m + 1] == After(tr[m], ConnectionLost(id))
  }

  ghost predicate LossToldAt(tr: seq<Server>, m: nat, id: nat)
    requires m + 1 < |tr|
  {
    CanHappen(tr[m], LossTold(id)) && tr[m + 1] == After(tr[m], LossTold(id))
  }

  lemma AdmitTells(h: Hub, q: nat, id: nat)
    requires HubOk(h) && q !in h.lives
    ensures ToldConnected(Admit(h, q), id) <==> ToldConnected(h, id) || (id == q && !h.finalizing)
    ensures OutOfMap(Admit(h, q), id) <==> OutOfMap(h, id)
    ensures ToldDisconnected(Admit(h, q), id) <==> ToldDisconnected(h, id)
  {
  }

  lemma RemoveTells(h: Hub, q: nat, id: nat)
    requires HubOk(h) && q in h.lives && h.lives[q].Up?
    ensures ToldConnected(Remove(h, q), id) <==> ToldConnected(h, id)
    ensures OutOfMap(Remove(h, q), id) <==> OutOfMap(h, id) || id == q
    ensures ToldDisconnected(Remove(h, q), id) <==> ToldDisconnected(h, id)
  {
  }

  lemma TellGoneTells(h: Hub, q: nat, id: nat)
    requires HubOk(h) && q in h.lives && h.lives[q].Leaving?
    ensures ToldConnected(TellGone(h, q), id) <==> ToldConnected(h, id)
    ensures OutOfMap(TellGone(h, q), id) <==> OutOfMap(h, id)
    ensures ToldDisconnected(TellGone(h, q), id) <==> ToldDisconnected(h, id) || id == q
  {
  }

  ghost predicate FreshReport(s: Server) {
    forall q :: s.delivered < |s.conn.posted| && s.conn.posted[s.delivered] == NewConnection(q) ==> q !in s.hub.lives
  }

  lemma ReportsAreFresh(tr: seq<Server>, m: nat)
    requires IsServerRun(tr) && m < |tr|
    ensures FreshReport(tr[m]) && HubOk(tr[m].hub)
  {
    ServerAlways(tr, m);
  }

  lemma HubStep(s: Server, e: Happening, id: nat)
    requires HubOk(s.hub) && FreshReport(s) && CanHappen(s, e)
    ensures ToldConnected(After(s, e).hub, id) <==> ToldConnected(s.hub, id) || Admits(s, e, id)
    ensures OutOfMap(After(s, e).hub, id) <==> OutOfMap(s.hub, id) || e == ConnectionLost(id)
    ensures ToldDisconnected(After(s, e).hub, id) <==> ToldDisconnected(s.hub, id) || e == LossTold(id)
  {
    match e
    case Conn(_) =>
    case StrandRuns =>
      var note := s.conn.posted[s.delivered];
      if note.NewConnection? {
        AdmitTells(s.hub, note.id, id);
      }
    case ConnectionLost(q) => RemoveTells(s.hub, q, id);
    case LossTold(q) => TellGoneTells(s.hub, q, id);
    case Finalize =>
  }

  lemma StepsTell(tr: seq<Server>, m: nat, id: nat)
    requires IsServerRun(tr) && m + 1 < |tr|
    ensures ToldConnected(tr[m + 1].hub, id) <==> ToldConnected(tr[m].hub, id) || AdmittedAt(tr, m, id)
    ensures OutOfMap(tr[m + 1].hub, id) <==> OutOfMap(tr[m].hub, id) || LostAt(tr, m, id)
    ensures ToldDisconnected(tr[m + 1].hub, id) <==> ToldDisconnected(tr[m].hub, id) || LossToldAt(tr, m, id)
  {
    ReportsAreFresh(tr, m);
    assert ServerStep(tr[m], tr[m + 1]);
    forall e | CanHappen(tr[m], e) && tr[m + 1] == After(tr[m], e)
      ensures ToldConnected(tr[m + 1].hub, id) <==> ToldConnected(tr[m].hub, id) || Admits(tr[m], e, id)
      ensures OutOfMap(tr[m + 1].hub, id) <==> OutOfMap(tr[m].hub, id) || e == ConnectionLost(id)
      ensures ToldDisconnected(tr[m + 1].hub, id) <==> ToldDisconnected(tr[m].hub, id) || e == LossTold(id)
    {
      HubStep(tr[m], e, id);
    }
  }

  /**
   In every run: a connection has been told connected exactly when its report ran before the
   endpoint finalized; it has left the map exactly when it was lost; and it has been told
   disconnected exactly when its loss was told.
   */
  lemma ToldExactly(tr: seq<Server>, i: nat, id: nat)
    requires IsServerRun(tr) && i < |tr|
    ensures ToldConnected(tr[i].hub, id) <==> exists m: nat :: m < i && AdmittedAt(tr, m, id)
    ensures OutOfMap(tr[i].hub, id) <==> exists m: nat :: m < i && LostAt(tr, m, id)
    ensures ToldDisconnected(tr[i].hub, id) <==> exists m: nat :: m < i && LossToldAt(tr, m, id)
  {
    ConnectedExactly(tr, i, id);
    LostExactly(tr, i, id);
    DisconnectedExactly(tr, i, id);
  }

  lemma ConnectedExactly(tr: seq<Server>, i: nat, id: nat)
    requires IsServerRun(tr) && i < |tr|
    ensures ToldConnected(tr[i].hub, id) <==> exists m: nat :: m < i && AdmittedAt(tr, m, id)
  {
    var holds := seq(|tr|, k requires 0 <= k < |tr| => ToldConnected(tr[k].hub, id));
    var brings := seq(|tr| - 1, k requires 0 <= k < |tr| - 1 => AdmittedAt(tr, k, id));
    forall k | 0 <= k < |brings|
      ensures holds[k + 1] <==> holds[k] || brings[k]
    {
      StepsTell(tr, k, id);
    }
    BroughtAbout(holds, brings, i);
    assert forall m: nat :: m < i ==> (brings[m] <==> AdmittedAt(tr, m, id));
  }

  lemma LostExactly(tr: seq<Server>, i: nat, id: nat)
    requires IsServerRun(tr) && i < |tr|
    ensures OutOfMap(tr[i].hub, id) <==> exists m: nat :: m < i && LostAt(tr, m, id)
  {
    var holds := seq(|tr|, k requires 0 <= k < |tr| => OutOfMap(tr[k].hub, id));
    var brings := seq(|tr| - 1, k requires 0 <= k < |tr| - 1 => LostAt(tr, k, id));
    forall k | 0 <= k < |brings|
      ensures holds[k + 1] <==> holds[k] || brings[k]
    {
      StepsTell(tr, k, id);
    }
    BroughtAbout(holds, brings, i);
    assert forall m: nat :: m < i ==> (brings[m] <==> LostAt(tr, m, id));
  }

  lemma DisconnectedExactly(tr: seq<Server>, i: nat, id: nat)
    requires IsServerRun(tr) && i < |tr|
    ensures ToldDisconnected(tr[i].hub, id) <==> exists m: nat :: m < i && LossToldAt(tr, m, id)
  {
    var holds := seq(|tr|, k requires 0 <= k < |tr| => ToldDisconnected(tr[k].hub, id));
    var brings := seq(|tr| - 1, k requires 0 <= k < |tr| - 1 => LossToldAt(tr, k, id));
    forall k | 0 <= k < |brings|
      ensures holds[k + 1] <==> holds[k] || brings[k]
    {
      StepsTell(tr, k, id);
    }
    BroughtAbout(holds, brings, i);
    assert forall m: nat :: m < i ==> (brings[m] <==> LossToldAt(tr, m, id));
  }

  /** A connection in the map can be lost, and one that was lost can be told of. */
  lemma LossesCanBeTold(tr: seq<Server>, i: nat, id: nat)
    requires IsServerRun(tr) && i < |tr|
    ensures id in tr[i].hub.endpoints ==> CanHappen(tr[i], ConnectionLost(id))
    ensures OutOfMap(tr[i].hub, id) && !ToldDisconnected(tr[i].hub, id) ==> CanHappen(tr[i], LossTold(id))
    ensures id in tr[i].hub.endpoints ==> ToldConnected(tr[i].hub, id)
  {
    ServerAlways(tr, i);
  }

  ghost predicate FinalizedAt(tr: seq<Server>, m: nat)
    requires m + 1 < |tr|
  {
    tr[m + 1] == After(tr[m], Finalize)
  }

  lemma FinalStep(s: Server, e: Happening, id: nat)
    requires CanHappen(s, e)
    ensures After(s, e).hub.finalizing <==> s.hub.finalizing || e.Finalize?
    ensures id in After(s, e).hub.asked <==> id in s.hub.asked || (e.Finalize? && id in s.hub.endpoints)
  {
  }

  lemma StepsFinalize(tr: seq<Server>, m: nat, id: nat)
    requires IsServerRun(tr) && m + 1 < |tr|
    ensures tr[m + 1].hub.finalizing <==> tr[m].hub.finalizing || FinalizedAt(tr, m)
    ensures id in tr[m + 1].hub.asked <==>
              id in tr[m].hub.asked || (FinalizedAt(tr, m) && id in tr[m].hub.endpoints)
  {
    assert ServerStep(tr[m], tr[m + 1]);
    forall e | CanHappen(tr[m], e) && tr[m + 1] == After(tr[m], e)
      ensures tr[m + 1].hub.finalizing <==> tr[m].hub.finalizing || e.Finalize?
      ensures id in tr[m + 1].hub.asked <==> id in tr[m].hub.asked || (e.Finalize? && id in tr[m].hub.endpoints)
    {
      FinalStep(tr[m], e, id);
    }
    assert CanHappen(tr[m], Finalize);
  }

  /** The endpoint finalizes when it is told to, and asks exactly those then in its map to disconnect. */
  lemma AskedExactly(tr: seq<Server>, i: nat, id: nat)
    requires IsServerRun(tr) && i < |tr|
    ensures tr[i].hub.finalizing <==> exists m: nat :: m < i && FinalizedAt(tr, m)
    ensures id in tr[i].hub.asked <==> exists m: nat :: m < i && FinalizedAt(tr, m) && id in tr[m].hub.endpoints
  {
    var finals := seq(|tr|, k requires 0 <= k < |tr| => tr[k].hub.finalizing);
    var asks := seq(|tr|, k requires 0 <= k < |tr| => id in tr[k].hub.asked);
    var ends := seq(|tr| - 1, k requires 0 <= k < |tr| - 1 => FinalizedAt(tr, k));
    var brings := seq(|tr| - 1, k requires 0 <= k < |tr| - 1 => FinalizedAt(tr, k) && id in tr[k].hub.endpoints);
    forall k | 0 <= k < |tr| - 1
      ensures (finals[k + 1] <==> finals[k] || ends[k]) && (asks[k + 1] <==> asks[k] || brings[k])
    {
      StepsFinalize(tr, k, id);
    }
    BroughtAbout(finals, ends, i);
    BroughtAbout(asks, brings, i);
    assert forall m: nat :: m < i ==> (ends[m] <==> FinalizedAt(tr, m));
    assert forall m: nat :: m < i ==> (brings[m] <==> FinalizedAt(tr, m) && id in tr[m].hub.endpoints);
  }
}
