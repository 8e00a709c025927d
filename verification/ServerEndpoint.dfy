/** The server endpoint downstream of the connector: its map of connections and what it tells of each. */
module ServerEndpoint {
  import opened Ledger
  import opened ServerConnector

  datatype Tiding = Connected | Disconnected

  /** Up: in use. Leaving: removed from the map, its disconnection still to be told. Gone: told. */
  datatype Life = Up | Leaving | Gone

  /** `endpoints` is the map; `told` is everything posted on each connection's own strand, in order. */
  datatype Hub = Hub(
    endpoints: set<nat>, finalizing: bool, asked: set<nat>, lives: map<nat, Life>, told: map<nat, seq<Tiding>>)

  const NEW_HUB: Hub := Hub({}, false, {}, map[], map[])

  // ----- the blocks -----

  function Admit(h: Hub, id: nat): Hub {
    if h.finalizing then h
    else h.(endpoints := h.endpoints + {id}, lives := h.lives[id := Up], told := Give(h.told, id, Connected))
  }

  function Remove(h: Hub, id: nat): Hub {
    h.(endpoints := h.endpoints - {id}, lives := h.lives[id := Leaving])
  }

  function TellGone(h: Hub, id: nat): Hub {
    h.(lives := h.lives[id := Gone], told := Give(h.told, id, Disconnected))
  }

  /** Every connection in the map is asked to disconnect; no other will be admitted. */
  function Finalized(h: Hub): Hub {
    h.(finalizing := true, asked := h.asked + h.endpoints)
  }

  // ----- the code -----

  class ServerEndpointImpl {
    var endpointsMap: set<nat>
    var isFinalizing: bool
    var asked: set<nat>
    var told: map<nat, seq<Tiding>>
    ghost var lives: map<nat, Life>

    ghost function View(): Hub
      reads this
    {
      Hub(endpointsMap, isFinalizing, asked, lives, told)
    }

    constructor ()
      ensures View() == NEW_HUB
    {
      endpointsMap, isFinalizing, asked, told, lives := {}, false, {}, map[], map[];
    }

    method ProcessNewConnection(id: nat)
      modifies this
      ensures View() == Admit(old(View()), id)
    {
      if isFinalizing {
        return;
      }
      endpointsMap := endpointsMap + {id};
      told := Give(told, id, Connected);
      lives := lives[id := Up];
    }

    method RemoveEndpointFromMap(id: nat)
      modifies this`endpointsMap, this`lives
      ensures View() == Remove(old(View()), id)
    {
      if id in endpointsMap {
        endpointsMap := endpointsMap - {id};
      }
      lives := lives[id := Leaving];
    }

    method Finalize()
      modifies this
      ensures View() == Finalized(old(View()))
    {
      isFinalizing := true;
      var todo := endpointsMap;
      while todo != {}
        invariant todo <= endpointsMap && endpointsMap == old(endpointsMap)
        invariant View() == Finalized(old(View())).(asked := asked)
        invariant asked == old(asked) + (endpointsMap - todo)
        decreases todo
      {
        var id :| id in todo;
        asked := asked + {id};
        todo := todo - {id};
      }
    }
  }

  // ----- connector and endpoint together -----

  /** `delivered`: how many of the connector's notes its strand has run. */
  datatype Server = Server(conn: Connector, delivered: nat, hub: Hub)

  const NEW_SERVER: Server := Server(NEW_CONNECTOR, 0, NEW_HUB)

  datatype Happening =
    | Conn(ev: ServerConnector.Event)
    | StrandRuns
    | ConnectionLost(id: nat)
    | LossTold(id: nat)
    | Finalize

  /** A connection is lost at most once, and for whatever reason. */
  predicate CanHappen(s: Server, e: Happening) {
    match e
    case Conn(ev) => ServerConnector.Enabled(s.conn, ev)
    case StrandRuns => s.delivered < |s.conn.posted|
    case ConnectionLost(id) => id in s.hub.lives && s.hub.lives[id].Up?
    case LossTold(id) => id in s.hub.lives && s.hub.lives[id].Leaving?
    case Finalize => true
  }

  function After(s: Server, e: Happening): Server
    requires CanHappen(s, e)
  {
    match e
    case Conn(ev) => s.(conn := ServerConnector.Next(s.conn, ev))
    case StrandRuns =>
      var note := s.conn.posted[s.delivered];
      s.(delivered := s.delivered + 1, hub := if note.NewConnection? then Admit(s.hub, note.id) else s.hub)
    case ConnectionLost(id) => s.(hub := Remove(s.hub, id))
    case LossTold(id) => s.(hub := TellGone(s.hub, id))
    case Finalize => s.(hub := Finalized(s.hub))
  }

  ghost predicate ServerStep(s: Server, s': Server) {
    exists e :: CanHappen(s, e) && s' == After(s, e)
  }

  ghost predicate IsServerRun(tr: seq<Server>) {
    |tr| > 0 && tr[0] == NEW_SERVER && forall i :: 0 <= i < |tr| - 1 ==> ServerStep(tr[i], tr[i + 1])
  }

  // ----- the invariant -----

  function ToldSoFar(life: Life): seq<Tiding> {
    if life.Gone? then [Connected, Disconnected] else [Connected]
  }

  ghost predicate HubOk(h: Hub) {
    && h.told.Keys == h.lives.Keys
    && (forall id :: id in h.lives ==> h.told[id] == ToldSoFar(h.lives[id]))
    && (forall id :: id in h.endpoints <==> id in h.lives && h.lives[id].Up?)
    && (h.finalizing ==> h.endpoints <= h.asked)
  }

  /** Every connection here was reported by the connector, in a note its strand has run. */
  ghost predicate ReportedFirst(s: Server) {
    && s.delivered <= |s.conn.posted|
    && forall id :: id in s.hub.lives ==>
         exists k :: 0 <= k < s.delivered && s.conn.posted[k] == NewConnection(id)
  }

  /** Until it finalizes, the endpoint passes over no report. */
  ghost predicate NonePassedOver(s: Server) {
    s.delivered <= |s.conn.posted| && !s.hub.finalizing ==>
      forall k :: 0 <= k < s.delivered && s.conn.posted[k].NewConnection? ==> s.conn.posted[k].id in s.hub.told
  }

  ghost predicate ServerInv(s: Server) {
    ServerConnector.Inv(s.conn) && HubOk(s.hub) && ReportedFirst(s) && NonePassedOver(s)
  }

  /** What is on the strand stays there. */
  lemma PostedGrows(c: Connector, ev: ServerConnector.Event)
    requires ServerConnector.Enabled(c, ev)
    ensures c.posted <= ServerConnector.Next(c, ev).posted
  {
  }

  lemma StrandReports(s: Server)
    requires ReportedFirst(s) && s.delivered < |s.conn.posted|
    ensures ReportedFirst(After(s, StrandRuns))
  {
    var s' := After(s, StrandRuns);
    forall id | id in s'.hub.lives
      ensures exists k :: 0 <= k < s'.delivered && s'.conn.posted[k] == NewConnection(id)
    {
      if id in s.hub.lives {
        var k :| 0 <= k < s.delivered && s.conn.posted[k] == NewConnection(id);
        assert s'.conn.posted[k] == NewConnection(id);
      } else {
        assert s'.conn.posted[s.delivered] == NewConnection(id);
      }
    }
  }

  /** The connector reports no connection twice, so the one admitted is new to the hub. */
  lemma StrandKeeps(s: Server)
    requires ServerInv(s) && s.delivered < |s.conn.posted|
    ensures ServerInv(After(s, StrandRuns))
  {
    StrandReports(s);
    var note := s.conn.posted[s.delivered];
    if note.NewConnection? {
      assert note.id !in s.hub.lives;
      AdmitKeeps(s.hub, note.id);
    }
  }

  lemma ConnKeeps(s: Server, c: Connector)
    requires ReportedFirst(s) && s.conn.posted <= c.posted
    ensures ReportedFirst(s.(conn := c))
  {
    forall id | id in s.hub.lives
      ensures exists k :: 0 <= k < s.delivered && c.posted[k] == NewConnection(id)
    {
      var k :| 0 <= k < s.delivered && s.conn.posted[k] == NewConnection(id);
      assert c.posted[k] == NewConnection(id);
    }
  }

  lemma AdmitKeeps(h: Hub, id: nat)
    requires HubOk(h) && id !in h.lives
    ensures HubOk(Admit(h, id))
  {
  }

  lemma RemoveKeeps(h: Hub, id: nat)
    requires HubOk(h) && id in h.lives && h.lives[id].Up?
    ensures HubOk(Remove(h, id))
  {
  }

  lemma TellGoneKeeps(h: Hub, id: nat)
    requires HubOk(h) && id in h.lives && h.lives[id].Leaving?
    ensures HubOk(TellGone(h, id))
  {
  }

  /** A hub that knows no other connections owes no other reports. */
  lemma ReportsKeep(s: Server, h: Hub)
    requires ReportedFirst(s) && h.lives.Keys == s.hub.lives.Keys
    ensures ReportedFirst(s.(hub := h))
  {
    forall id | id in h.lives
      ensures exists k :: 0 <= k < s.delivered && s.conn.posted[k] == NewConnection(id)
    {
      assert id in s.hub.lives;
    }
  }

  lemma HubKeeps(s: Server, e: Happening)
    requires HubOk(s.hub) && ReportedFirst(s) && CanHappen(s, e) && !e.Conn? && !e.StrandRuns?
    ensures HubOk(After(s, e).hub) && ReportedFirst(After(s, e))
    ensures After(s, e).hub.told.Keys == s.hub.told.Keys
  {
    match e
    case ConnectionLost(id) =>
      RemoveKeeps(s.hub, id);
      ReportsKeep(s, Remove(s.hub, id));
    case LossTold(id) =>
      TellGoneKeeps(s.hub, id);
      ReportsKeep(s, TellGone(s.hub, id));
    case Finalize => ReportsKeep(s, Finalized(s.hub));
  }

  lemma HappeningKeeps(s: Server, e: Happening)
    requires ServerInv(s) && CanHappen(s, e)
    ensures ServerInv(After(s, e))
  {
    if e.Conn? {
      ServerConnector.EventKeeps(s.conn, e.ev);
      PostedGrows(s.conn, e.ev);
      ConnKeeps(s, ServerConnector.Next(s.conn, e.ev));
    } else if e.StrandRuns? {
      StrandKeeps(s);
    } else {
      HubKeeps(s, e);
    }
  }

  lemma {:induction false} ServerAlways(tr: seq<Server>, i: nat)
    requires IsServerRun(tr) && i < |tr|
    ensures ServerInv(tr[i])
  {
    if i > 0 {
      ServerAlways(tr, i - 1);
      assert ServerStep(tr[i - 1], tr[i]);
      var e :| CanHappen(tr[i - 1], e) && tr[i] == After(tr[i - 1], e);
      HappeningKeeps(tr[i - 1], e);
    }
  }

  // ----- the promises -----

  /**
   Each connection is told connected before disconnected, each once, and only after the connector
   reported it; until the endpoint finalizes, every one reported is told. The map holds exactly
   those told connected and not lost since.
   */
  lemma ConnectedThenDisconnected(tr: seq<Server>, i: nat, id: nat)
    requires IsServerRun(tr) && i < |tr|
    ensures id in tr[i].hub.told ==>
              && tr[i].hub.told[id] in {[Connected], [Connected, Disconnected]}
              && tr[i].delivered <= |tr[i].conn.posted|
              && exists k :: 0 <= k < tr[i].delivered && tr[i].conn.posted[k] == NewConnection(id)
    ensures !tr[i].hub.finalizing ==>
              && tr[i].delivered <= |tr[i].conn.posted|
              && forall k :: 0 <= k < tr[i].delivered && tr[i].conn.posted[k] == NewConnection(id) ==>
                   id in tr[i].hub.told
    ensures id in tr[i].hub.endpoints <==>
              && id in tr[i].hub.lives && tr[i].hub.lives[id].Up?
              && id in tr[i].hub.told && tr[i].hub.told[id] == [Connected]
  {
    ServerAlways(tr, i);
  }

  /** A step of an endpoint that is finalizing admits nobody and tells nobody new. */
  lemma FinalizingStep(tr: seq<Server>, i: nat)
    requires IsServerRun(tr) && i + 1 < |tr| && tr[i].hub.finalizing
    ensures tr[i + 1].hub.finalizing && tr[i + 1].hub.endpoints <= tr[i].hub.endpoints
    ensures tr[i + 1].hub.told.Keys == tr[i].hub.told.Keys
  {
    ServerAlways(tr, i);
    assert ServerStep(tr[i], tr[i + 1]);
    var e :| CanHappen(tr[i], e) && tr[i + 1] == After(tr[i], e);
    if !e.Conn? && !e.StrandRuns? {
      HubKeeps(tr[i], e);
    }
  }

  lemma AllAsked(tr: seq<Server>, i: nat)
    requires IsServerRun(tr) && i < |tr| && tr[i].hub.finalizing
    ensures tr[i].hub.endpoints <= tr[i].hub.asked
  {
    ServerAlways(tr, i);
  }

  /**
   Once finalizing, no connection enters the map or is told connected, and every one in the map has
   been asked to leave.
   */
  lemma {:induction false} NoneEntersAfterFinalize(tr: seq<Server>, i: nat, j: nat)
    requires IsServerRun(tr) && i <= j < |tr| && tr[i].hub.finalizing
    ensures tr[j].hub.finalizing && tr[j].hub.endpoints <= tr[i].hub.endpoints
    ensures tr[j].hub.told.Keys == tr[i].hub.told.Keys
    ensures tr[j].hub.endpoints <= tr[j].hub.asked
    decreases j
  {
    if i < j {
      NoneEntersAfterFinalize(tr, i, j - 1);
      FinalizingStep(tr, j - 1);
    }
    AllAsked(tr, j);
  }
}
