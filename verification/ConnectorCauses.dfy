/** What makes the server's connector post a note, and that it never stops listening while it runs. */
module ConnectorCauses {
  import opened Prelude
  import opened ServerConnector

  /** The notes an event posts, told from which generation is running and whose attempt it is about. */
  ghost function Posts(c: Connector, ev: Event): seq<Note>
    requires Enabled(c, ev) && forall id :: id in c.progress ==> id in c.gen
  {
    match ev
    case StartCall => if c.current.None? then [Started] else []
    case StopCall(tok) => if c.current == Some(tok) then [Stopped] else []
    case PipeFailed(id) => if c.current == Some(c.gen[id]) then [Stopped] else []
    case HandshakeDone(id) => if c.current == Some(c.gen[id]) then [NewConnection(id)] else []
    case PipeReady(_) => []
    case HandshakeFailed(_) => []
    case HandshakeEnd(_) => []
  }

  /** The generation that runs after an event: a start opens the next one, a stop of it ends it. */
  ghost function Running(c: Connector, ev: Event): Option<nat>
    requires Enabled(c, ev) && forall id :: id in c.progress ==> id in c.gen
  {
    if Posts(c, ev) == [Started] then Some(|c.tokens|)
    else if Posts(c, ev) == [Stopped] then None
    else c.current
  }

  ghost predicate PostsExactly(c: Connector, ev: Event) {
    && Enabled(c, ev) && (forall id :: id in c.progress ==> id in c.gen)
    && Next(c, ev).posted == c.posted + Posts(c, ev)
    && Next(c, ev).current == Running(c, ev)
  }

  lemma StepPosts(c: Connector, ev: Event)
    requires Inv(c) && Enabled(c, ev)
    ensures PostsExactly(c, ev)
  {
    assert c.posted + [] == c.posted;
  }

  /**
   In every run: a start posts started exactly when no generation runs, a stop or a failed accept
   posts stopped exactly when its own generation runs, and a finished handshake posts the new
   connection exactly when the generation that accepted it runs. Nothing else posts anything.
   */
  lemma EventsPostExactly(tr: seq<Connector>, i: nat, ev: Event)
    requires IsRun(tr) && i < |tr| && Enabled(tr[i], ev)
    ensures PostsExactly(tr[i], ev)
  {
    Always(tr, i);
    StepPosts(tr[i], ev);
  }

  /** At step m the handshake of attempt id ends well while the generation that accepted it runs. */
  ghost predicate ConnectedAt(tr: seq<Connector>, m: nat, id: nat)
    requires m + 1 < |tr|
  {
    && Enabled(tr[m], HandshakeDone(id)) && tr[m + 1] == Next(tr[m], HandshakeDone(id))
    && id in tr[m].gen && tr[m].current == Some(tr[m].gen[id])
  }

  lemma StepReports(tr: seq<Connector>, m: nat, id: nat)
    requires IsRun(tr) && m + 1 < |tr|
    ensures NewConnection(id) in tr[m + 1].posted <==> NewConnection(id) in tr[m].posted || ConnectedAt(tr, m, id)
  {
    Always(tr, m);
    assert Step(tr[m], tr[m + 1]);
    var ev :| Enabled(tr[m], ev) && tr[m + 1] == Next(tr[m], ev);
    StepPosts(tr[m], ev);
    if ConnectedAt(tr, m, id) {
      StepPosts(tr[m], HandshakeDone(id));
    }
  }

  /** In every run exactly those connections have been reported whose handshake ended in their generation. */
  lemma ReportedExactly(tr: seq<Connector>, i: nat, id: nat)
    requires IsRun(tr) && i < |tr|
    ensures NewConnection(id) in tr[i].posted <==> exists m: nat :: m < i && ConnectedAt(tr, m, id)
  {
    var holds := seq(|tr|, k requires 0 <= k < |tr| => NewConnection(id) in tr[k].posted);
    var brings := seq(|tr| - 1, k requires 0 <= k < |tr| - 1 => ConnectedAt(tr, k, id));
    forall k | 0 <= k < |brings|
      ensures holds[k + 1] <==> holds[k] || brings[k]
    {
      StepReports(tr, k, id);
    }
    BroughtAbout(holds, brings, i);
    assert forall m: nat :: m < i ==> (brings[m] <==> ConnectedAt(tr, m, id));
  }

  // ----- listening -----

  /** Attempt id is an accept of generation tok that is outstanding. */
  ghost predicate Listens(c: Connector, tok: nat, id: nat) {
    id in c.progress && c.progress[id] == Connecting(tok)
  }

  ghost predicate ListenOk(c: Connector) {
    && (forall tok, a, b :: Listens(c, tok, a) && Listens(c, tok, b) ==> a == b)
    && (c.current.Some? ==> exists id :: Listens(c, c.current.value, id))
  }

  lemma ListenOnceListens(c: Connector, tok: nat)
    requires (forall id :: !Listens(c, tok, id)) && c.nextId !in c.progress
    requires forall t, a, b :: Listens(c, t, a) && Listens(c, t, b) ==> a == b
    requires c.current == Some(tok)
    ensures ListenOk(ListenOnce(c, tok))
  {
    var c' := ListenOnce(c, tok);
    assert Listens(c', tok, c.nextId);
    forall t, a, b | Listens(c', t, a) && Listens(c', t, b)
      ensures a == b
    {
      assert a != c.nextId ==> Listens(c, t, a);
      assert b != c.nextId ==> Listens(c, t, b);
    }
  }

  lemma StartListens(c: Connector)
    requires Inv(c) && ListenOk(c)
    ensures ListenOk(StartFirst(c))
  {
    if c.current.None? {
      var tok := |c.tokens|;
      var c1 := c.(posted := c.posted + [Started], tokens := c.tokens + [true], current := Some(tok));
      assert forall t, a :: Listens(c1, t, a) <==> Listens(c, t, a);
      ListenOnceListens(c1, tok);
    }
  }

  lemma ReadyListens(c: Connector, id: nat)
    requires Inv(c) && ListenOk(c) && Enabled(c, PipeReady(id))
    ensures ListenOk(Next(c, PipeReady(id)))
  {
    var tok := c.progress[id].tok;
    var c1 := Moved(c, id, Handshaking(tok));
    assert Listens(c, tok, id);
    assert forall t, a :: Listens(c1, t, a) <==> Listens(c, t, a) && a != id;
    if c.current == Some(tok) {
      ListenOnceListens(c1, tok);
    } else if c.current.Some? {
      var a :| Listens(c, c.current.value, a);
      assert Listens(c1, c.current.value, a);
    }
  }

  /** An attempt that was accepted before moves on, or one leaves, without the running generation's. */
  lemma OthersListen(c: Connector, c': Connector)
    requires ListenOk(c) && (c'.current == c.current || c'.current.None?)
    requires forall t, a :: Listens(c', t, a) ==> Listens(c, t, a)
    requires forall a :: c'.current.Some? && Listens(c, c'.current.value, a) ==> Listens(c', c'.current.value, a)
    ensures ListenOk(c')
  {
    if c'.current.Some? {
      var a :| Listens(c, c.current.value, a);
      assert Listens(c', c'.current.value, a);
    }
  }

  lemma StepListens(c: Connector, ev: Event)
    requires Inv(c) && ListenOk(c) && Enabled(c, ev)
    ensures ListenOk(Next(c, ev))
  {
    match ev
    case StartCall => StartListens(c);
    case PipeReady(id) => ReadyListens(c, id);
    case StopCall(_) => OthersListen(c, Next(c, ev));
    case PipeFailed(_) => OthersListen(c, Next(c, ev));
    case HandshakeDone(_) => OthersListen(c, Next(c, ev));
    case HandshakeFailed(_) => OthersListen(c, Next(c, ev));
    case HandshakeEnd(_) => OthersListen(c, Next(c, ev));
  }

  lemma {:induction false} ListensAlways(tr: seq<Connector>, i: nat)
    requires IsRun(tr) && i < |tr|
    ensures ListenOk(tr[i])
  {
    if i > 0 {
      ListensAlways(tr, i - 1);
      Always(tr, i - 1);
      assert Step(tr[i - 1], tr[i]);
      var ev :| Enabled(tr[i - 1], ev) && tr[i] == Next(tr[i - 1], ev);
      StepListens(tr[i - 1], ev);
    }
  }

  /** While a generation runs it has exactly one accept outstanding, whatever comes of the earlier ones. */
  lemma OneAcceptPerGeneration(tr: seq<Connector>, i: nat) returns (id: nat)
    requires IsRun(tr) && i < |tr| && tr[i].current.Some?
    ensures Listens(tr[i], tr[i].current.value, id)
    ensures forall a :: Listens(tr[i], tr[i].current.value, a) ==> a == id
    ensures Enabled(tr[i], PipeReady(id)) && Enabled(tr[i], PipeFailed(id))
  {
    ListensAlways(tr, i);
    id :| Listens(tr[i], tr[i].current.value, id);
  }

  /** An attempt goes through accept, handshake and end, and is never stuck; its generation stays its own. */
  lemma AttemptsGoOn(tr: seq<Connector>, i: nat, ev: Event, id: nat)
    requires IsRun(tr) && i < |tr| && Enabled(tr[i], ev)
    ensures id in tr[i].gen ==> id in Next(tr[i], ev).gen && Next(tr[i], ev).gen[id] == tr[i].gen[id]
    ensures id !in tr[i].gen && id in Next(tr[i], ev).gen ==>
              Next(tr[i], ev).current == Some(Next(tr[i], ev).gen[id]) && Enabled(Next(tr[i], ev), PipeReady(id))
    ensures ev == PipeReady(id) ==>
              Enabled(Next(tr[i], ev), HandshakeDone(id)) && Enabled(Next(tr[i], ev), HandshakeFailed(id))
    ensures ev == HandshakeDone(id) || ev == HandshakeFailed(id) ==> Enabled(Next(tr[i], ev), HandshakeEnd(id))
    ensures ev == HandshakeEnd(id) ==> id !in Next(tr[i], ev).progress && id !in Next(tr[i], ev).futures
  {
    Always(tr, i);
  }

  /** The future map holds exactly the attempts in progress that belong to the running generation. */
  lemma FuturesAreExact(tr: seq<Connector>, i: nat, id: nat)
    requires IsRun(tr) && i < |tr|
    ensures id in tr[i].futures <==>
              id in tr[i].progress && id in tr[i].gen && tr[i].current == Some(tr[i].gen[id])
  {
    Always(tr, i);
  }
}
