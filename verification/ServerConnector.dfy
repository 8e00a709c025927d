/**
 The server's connector: it listens in generations, each with its own running token, and reports
 starts, new connections and stops on one strand.
 */
module ServerConnector {
  import opened Prelude

  datatype Note = Started | NewConnection(id: nat) | Stopped

  /** How far connection attempt id has come, and the generation it belongs to. */
  datatype Stage = Connecting(tok: nat) | Handshaking(tok: nat) | Ending(tok: nat)

  /**
   `tokens` are the running tokens that have taken effect, by generation, and `current` is the
   connector's own. `progress` holds the continuations still to run. `futures` is the future map.
   `posted` is everything posted on the strand so far, `gen` the generation of every attempt.
   */
  datatype Connector = Connector(
    tokens: seq<bool>, current: Option<nat>, nextId: nat, progress: map<nat, Stage>, futures: set<nat>,
    posted: seq<Note>, gen: map<nat, nat>)

  const NEW_CONNECTOR: Connector := Connector([], None, 0, map[], {}, [], map[])

  predicate Runs(c: Connector, tok: nat) {
    tok < |c.tokens| && c.tokens[tok]
  }

  // ----- the blocks -----

  function ListenOnce(c: Connector, tok: nat): Connector {
    c.(nextId := c.nextId + 1, progress := c.progress[c.nextId := Connecting(tok)],
       futures := c.futures + {c.nextId}, gen := c.gen[c.nextId := tok])
  }

  /** A start while running throws and changes nothing. */
  function StartFirst(c: Connector): Connector {
    if c.current.Some? && Runs(c, c.current.value) then c
    else
      var tok := |c.tokens|;
      ListenOnce(c.(posted := c.posted + [Started], tokens := c.tokens + [true], current := Some(tok)), tok)
  }

  function StartAgain(c: Connector, tok: nat): Connector {
    if Runs(c, tok) then ListenOnce(c, tok) else c
  }

  function StopImpl(c: Connector, tok: nat): Connector {
    if !Runs(c, tok) then c
    else c.(tokens := c.tokens[tok := false], current := None, futures := {}, posted := c.posted + [Stopped])
  }

  function Report(c: Connector, id: nat, tok: nat): Connector {
    if Runs(c, tok) then c.(posted := c.posted + [NewConnection(id)]) else c
  }

  function Erase(c: Connector, id: nat): Connector {
    c.(futures := c.futures - {id})
  }

  // ----- the code -----

  class ServerConnectorImpl {
    var tokens: seq<bool>
    var isRunningSp: Option<nat>
    var nextConnectionId: nat
    var connectionFutureMap: set<nat>
    var strand: seq<Note>
    ghost var progress: map<nat, Stage>
    ghost var gen: map<nat, nat>

    ghost function View(): Connector
      reads this
    {
      Connector(tokens, isRunningSp, nextConnectionId, progress, connectionFutureMap, strand, gen)
    }

    constructor ()
      ensures View() == NEW_CONNECTOR
    {
      tokens, isRunningSp, nextConnectionId, connectionFutureMap, strand := [], None, 0, {}, [];
      progress, gen := map[], map[];
    }

    method CreatePipe(tok: nat)
      modifies this
      ensures View() == ListenOnce(old(View()), tok)
    {
      var connectionId := nextConnectionId;
      nextConnectionId := nextConnectionId + 1;
      connectionFutureMap := connectionFutureMap + {connectionId};
      progress := progress[connectionId := Connecting(tok)];
      gen := gen[connectionId := tok];
    }

    method Start() returns (thrown: bool)
      requires isRunningSp.Some? ==> isRunningSp.value < |tokens|
      modifies this
      ensures thrown <==> old(isRunningSp.Some? && tokens[isRunningSp.value])
      ensures View() == StartFirst(old(View()))
    {
      if isRunningSp.Some? && tokens[isRunningSp.value] {
        return true;
      }
      strand := strand + [Started];
      var tok := |tokens|;
      tokens := tokens + [true];
      isRunningSp := Some(tok);
      CreatePipe(tok);
      return false;
    }

    method StartPipeConnectAgain(tok: nat)
      requires tok < |tokens|
      modifies this
      ensures View() == StartAgain(old(View()), tok)
    {
      if !tokens[tok] {
        return;
      }
      CreatePipe(tok);
    }

    method Stop(tok: nat)
      requires tok < |tokens|
      modifies this
      ensures View() == StopImpl(old(View()), tok)
    {
      if !tokens[tok] {
        return;
      }
      tokens := tokens[tok := false];
      isRunningSp := None;
      connectionFutureMap := {};
      strand := strand + [Stopped];
    }

    method NotifyOnNewConnection(id: nat, tok: nat)
      requires tok < |tokens|
      modifies this`strand
      ensures View() == Report(old(View()), id, tok)
    {
      if tokens[tok] {
        strand := strand + [NewConnection(id)];
      }
    }

    method EraseConnectionFutureFromMap(id: nat)
      modifies this`connectionFutureMap
      ensures View() == Erase(old(View()), id)
    {
      connectionFutureMap := connectionFutureMap - {id};
    }
  }

  // ----- runs -----

  datatype Event =
    | StartCall
    | StopCall(tok: nat)
    | PipeReady(id: nat) | PipeFailed(id: nat)
    | HandshakeDone(id: nat) | HandshakeFailed(id: nat) | HandshakeEnd(id: nat)

  /** A stop may act on any token it read earlier, however much later. */
  predicate Enabled(c: Connector, ev: Event) {
    match ev
    case StartCall => true
    case StopCall(tok) => tok < |c.tokens|
    case PipeReady(id) => id in c.progress && c.progress[id].Connecting?
    case PipeFailed(id) => id in c.progress && c.progress[id].Connecting?
    case HandshakeDone(id) => id in c.progress && c.progress[id].Handshaking?
    case HandshakeFailed(id) => id in c.progress && c.progress[id].Handshaking?
    case HandshakeEnd(id) => id in c.progress && c.progress[id].Ending?
  }

  function Moved(c: Connector, id: nat, stage: Stage): Connector {
    c.(progress := c.progress[id := stage])
  }

  function Next(c: Connector, ev: Event): Connector
    requires Enabled(c, ev)
  {
    match ev
    case StartCall => StartFirst(c)
    case StopCall(tok) => StopImpl(c, tok)
    case PipeReady(id) =>
      var tok := c.progress[id].tok;
      StartAgain(Moved(c, id, Handshaking(tok)), tok)
    case PipeFailed(id) => StopImpl(c.(progress := c.progress - {id}), c.progress[id].tok)
    case HandshakeDone(id) =>
      var tok := c.progress[id].tok;
      Report(Moved(c, id, Ending(tok)), id, tok)
    case HandshakeFailed(id) => Moved(c, id, Ending(c.progress[id].tok))
    case HandshakeEnd(id) => Erase(c.(progress := c.progress - {id}), id)
  }

  ghost predicate Step(c: Connector, c': Connector) {
    exists ev :: Enabled(c, ev) && c' == Next(c, ev)
  }

  ghost predicate IsRun(tr: seq<Connector>) {
    |tr| > 0 && tr[0] == NEW_CONNECTOR && forall i :: 0 <= i < |tr| - 1 ==> Step(tr[i], tr[i + 1])
  }

  // ----- the grammar of notifications -----

  /** Some(true): a generation is open; Some(false): none is; None: the notes are out of order. */
  function Phase(notes: seq<Note>): Option<bool> {
    if notes == [] then Some(false)
    else
      match (Phase(notes[..|notes| - 1]), notes[|notes| - 1])
      case (Some(false), Started) => Some(true)
      case (Some(true), NewConnection(_)) => Some(true)
      case (Some(true), Stopped) => Some(false)
      case _ => None
  }

  /** How many generations have been started. */
  function Starts(notes: seq<Note>): nat {
    if notes == [] then 0
    else Starts(notes[..|notes| - 1]) + if notes[|notes| - 1].Started? then 1 else 0
  }

  function News(ids: seq<nat>): seq<Note> {
    seq(|ids|, i requires 0 <= i < |ids| => NewConnection(ids[i]))
  }

  /** Whole generations, and perhaps one that is still open. */
  function Render(whole: seq<seq<nat>>, open: Option<seq<nat>>): seq<Note>
    decreases |whole|, if open.Some? then 1 else 0
  {
    if open.Some? then Render(whole, None) + [Started] + News(open.value)
    else if whole == [] then []
    else Render(whole[..|whole| - 1], None) + [Started] + News(whole[|whole| - 1]) + [Stopped]
  }

  /** The notes in order are exactly the prefixes of (started new* stopped)*. */
  lemma {:induction false} PhaseIsGrammar(notes: seq<Note>) returns (whole: seq<seq<nat>>, open: Option<seq<nat>>)
    requires Phase(notes).Some?
    ensures notes == Render(whole, open) && Phase(notes) == Some(open.Some?)
  {
    if notes == [] {
      whole, open := [], None;
    } else {
      var n := |notes| - 1;
      var note := notes[n];
      assert notes == notes[..n] + [note];
      whole, open := PhaseIsGrammar(notes[..n]);
      match note
      case Started => open := Some([]);
      case NewConnection(id) =>
        assert News(open.value + [id]) == News(open.value) + [note];
        open := Some(open.value + [id]);
      case Stopped =>
        var ids := open.value;
        assert (whole + [ids])[..|whole|] == whole;
        whole, open := whole + [ids], None;
    }
  }

  lemma {:induction false} GrammarHasPhase(whole: seq<seq<nat>>, open: Option<seq<nat>>)
    ensures Phase(Render(whole, open)) == Some(open.Some?)
    decreases |whole|, if open.Some? then 1 else 0
  {
    if open.Some? {
      GrammarHasPhase(whole, None);
      OpenPhase(Render(whole, None), open.value);
    } else if whole != [] {
      var n := |whole| - 1;
      GrammarHasPhase(whole[..n], None);
      var before := Render(whole[..n], None) + [Started] + News(whole[n]);
      OpenPhase(Render(whole[..n], None), whole[n]);
      assert Render(whole, open)[..|before|] == before;
    }
  }

  lemma {:induction false} OpenPhase(before: seq<Note>, ids: seq<nat>)
    requires Phase(before) == Some(false)
    ensures Phase(before + [Started] + News(ids)) == Some(true)
  {
    var notes := before + [Started] + News(ids);
    if ids == [] {
      assert notes[..|notes| - 1] == before;
    } else {
      OpenPhase(before, ids[..|ids| - 1]);
      assert notes[..|notes| - 1] == before + [Started] + News(ids[..|ids| - 1]);
    }
  }

  /** A prefix of notes in order is in order. */
  lemma {:induction false} PrefixInOrder(notes: seq<Note>, k: nat)
    requires Phase(notes).Some? && k <= |notes|
    ensures Phase(notes[..k]).Some?
  {
    if k == |notes| {
      assert notes[..k] == notes;
    } else {
      PrefixInOrder(notes[..|notes| - 1], k);
      assert notes[..|notes| - 1][..k] == notes[..k];
    }
  }

  // ----- the invariant -----

  /** Only the latest token can be true, and it is true exactly while it is the connector's own. */
  ghost predicate TokensOk(c: Connector) {
    && Phase(c.posted) == Some(c.current.Some?)
    && Starts(c.posted) == |c.tokens|
    && (c.current.Some? ==> c.current.value == |c.tokens| - 1)
    && (forall k :: 0 <= k < |c.tokens| ==> (c.tokens[k] <==> c.current == Some(k)))
  }

  ghost predicate AttemptsOk(c: Connector) {
    && (forall id: nat :: id in c.gen <==> id < c.nextId)
    && (forall id :: id in c.gen ==> c.gen[id] < |c.tokens|)
    && (forall id :: id in c.progress ==> id in c.gen && c.progress[id].tok == c.gen[id])
    && (forall id :: id in c.futures <==> id in c.progress && Runs(c, c.progress[id].tok))
  }

  /** A connection is reported once, after its handshake, in its own generation. */
  ghost predicate ReportOk(c: Connector, i: nat)
    requires i < |c.posted| && c.posted[i].NewConnection?
  {
    var id := c.posted[i].id;
    && id in c.gen && Starts(c.posted[..i]) == c.gen[id] + 1
    && (id in c.progress ==> c.progress[id].Ending?)
  }

  ghost predicate ReportsOk(c: Connector) {
    && (forall i :: 0 <= i < |c.posted| && c.posted[i].NewConnection? ==> ReportOk(c, i))
    && (forall i, j :: 0 <= i < j < |c.posted| && c.posted[i].NewConnection? && c.posted[j].NewConnection? ==>
          c.posted[i].id != c.posted[j].id)
  }

  ghost predicate Inv(c: Connector) {
    TokensOk(c) && AttemptsOk(c) && ReportsOk(c)
  }

  // ----- each event keeps it -----

  lemma PostOne(notes: seq<Note>, note: Note)
    ensures (notes + [note])[..|notes|] == notes
    ensures Starts(notes + [note]) == Starts(notes) + if note.Started? then 1 else 0
    ensures Phase(notes) == Some(false) && note.Started? ==> Phase(notes + [note]) == Some(true)
    ensures Phase(notes) == Some(true) && note.NewConnection? ==> Phase(notes + [note]) == Some(true)
    ensures Phase(notes) == Some(true) && note.Stopped? ==> Phase(notes + [note]) == Some(false)
  {
  }

  /** A note that is no report leaves the reports as they were, if the attempts only move on. */
  lemma ReportsStay(c: Connector, c': Connector)
    requires ReportsOk(c) && AttemptsOk(c)
    requires c'.posted == c.posted || exists note: Note :: !note.NewConnection? && c'.posted == c.posted + [note]
    requires forall id :: id in c.gen ==> id in c'.gen && c'.gen[id] == c.gen[id]
    requires forall id :: id in c.gen && id in c'.progress ==> id in c.progress
    requires forall id :: id in c.gen && id in c'.progress && c.progress[id].Ending? ==> c'.progress[id].Ending?
    ensures ReportsOk(c')
  {
    forall i | 0 <= i < |c'.posted| && c'.posted[i].NewConnection?
      ensures i < |c.posted| && c'.posted[i] == c.posted[i] && ReportOk(c', i)
    {
      assert ReportOk(c, i);
      assert c'.posted[..i] == c.posted[..i];
    }
  }

  lemma StopKeeps(c: Connector, tok: nat)
    requires Inv(c) && tok < |c.tokens|
    ensures Inv(StopImpl(c, tok))
  {
    if Runs(c, tok) {
      PostOne(c.posted, Stopped);
      ReportsStay(c, StopImpl(c, tok));
    }
  }

  lemma ListenKeeps(c: Connector, tok: nat)
    requires Inv(c) && Runs(c, tok)
    ensures Inv(ListenOnce(c, tok))
  {
    assert c.nextId !in c.gen;
    ReportsStay(c, ListenOnce(c, tok));
  }

  lemma StartKeeps(c: Connector)
    requires Inv(c)
    ensures Inv(StartFirst(c))
  {
    if c.current.None? {
      var tok := |c.tokens|;
      var c1 := c.(posted := c.posted + [Started], tokens := c.tokens + [true], current := Some(tok));
      PostOne(c.posted, Started);
      ReportsStay(c, c1);
      forall id
        ensures id in c1.futures <==> id in c1.progress && Runs(c1, c1.progress[id].tok)
      {
        assert id in c.progress ==> id in c.gen && c.progress[id].tok < |c.tokens|;
      }
      ListenKeeps(c1, tok);
    }
  }

  lemma PostReport(c: Connector, id: nat)
    requires ReportsOk(c) && id in c.gen && Starts(c.posted) == c.gen[id] + 1
    requires id in c.progress ==> c.progress[id].Ending?
    requires forall i :: 0 <= i < |c.posted| && c.posted[i].NewConnection? ==> c.posted[i].id != id
    ensures ReportsOk(c.(posted := c.posted + [NewConnection(id)]))
  {
    var c' := c.(posted := c.posted + [NewConnection(id)]);
    forall i | 0 <= i < |c'.posted| && c'.posted[i].NewConnection?
      ensures ReportOk(c', i)
    {
      assert c'.posted[..i] == c.posted[..i];
      assert i < |c.posted| ==> ReportOk(c, i);
      assert c.posted[..|c.posted|] == c.posted;
    }
  }

  lemma NotYetReported(c: Connector, id: nat)
    requires ReportsOk(c) && id in c.progress && c.progress[id].Handshaking?
    ensures forall i :: 0 <= i < |c.posted| && c.posted[i].NewConnection? ==> c.posted[i].id != id
  {
    forall i | 0 <= i < |c.posted| && c.posted[i].NewConnection?
      ensures c.posted[i].id != id
    {
      assert ReportOk(c, i);
    }
  }

  lemma MoveKeeps(c: Connector, id: nat, stage: Stage)
    requires Inv(c) && id in c.progress && stage.tok == c.progress[id].tok
    requires c.progress[id].Ending? ==> stage.Ending?
    ensures Inv(Moved(c, id, stage))
  {
    ReportsStay(c, Moved(c, id, stage));
  }

  lemma PostKeeps(c: Connector, id: nat)
    requires Inv(c) && id in c.progress && c.progress[id].Ending? && Runs(c, c.progress[id].tok)
    requires forall i :: 0 <= i < |c.posted| && c.posted[i].NewConnection? ==> c.posted[i].id != id
    ensures Inv(Report(c, id, c.progress[id].tok))
  {
    PostOne(c.posted, NewConnection(id));
    PostReport(c, id);
  }

  lemma ReportKeeps(c: Connector, id: nat)
    requires Inv(c) && id in c.progress && c.progress[id].Handshaking?
    ensures Inv(Next(c, HandshakeDone(id)))
  {
    var tok := c.progress[id].tok;
    NotYetReported(c, id);
    MoveKeeps(c, id, Ending(tok));
    if Runs(c, tok) {
      PostKeeps(Moved(c, id, Ending(tok)), id);
    }
  }

  lemma EventKeeps(c: Connector, ev: Event)
    requires Inv(c) && Enabled(c, ev)
    ensures Inv(Next(c, ev))
  {
    match ev
    case StartCall => StartKeeps(c);
    case StopCall(tok) => StopKeeps(c, tok);
    case PipeReady(id) =>
      var tok := c.progress[id].tok;
      MoveKeeps(c, id, Handshaking(tok));
      if Runs(c, tok) {
        ListenKeeps(Moved(c, id, Handshaking(tok)), tok);
      }
    case PipeFailed(id) =>
      FailedKeeps(c, id);
    case HandshakeDone(id) => ReportKeeps(c, id);
    case HandshakeFailed(id) => MoveKeeps(c, id, Ending(c.progress[id].tok));
    case HandshakeEnd(id) => ReportsStay(c, Next(c, ev));
  }

  lemma FailedKeeps(c: Connector, id: nat)
    requires Inv(c) && id in c.progress
    ensures Inv(StopImpl(c.(progress := c.progress - {id}), c.progress[id].tok))
  {
    var tok := c.progress[id].tok;
    var c' := StopImpl(c.(progress := c.progress - {id}), tok);
    ReportsStay(c, c');
    if Runs(c, tok) {
      PostOne(c.posted, Stopped);
    }
  }

  lemma {:induction false} Always(tr: seq<Connector>, i: nat)
    requires IsRun(tr) && i < |tr|
    ensures Inv(tr[i])
  {
    if i > 0 {
      Always(tr, i - 1);
      assert Step(tr[i - 1], tr[i]);
      var ev :| Enabled(tr[i - 1], ev) && tr[i] == Next(tr[i - 1], ev);
      EventKeeps(tr[i - 1], ev);
    }
  }

  // ----- the promises -----

  /**
   In every run, whatever the strand has delivered so far (the first k notes posted) is a prefix of
   (started new_connection* stopped)*, and no connection id is reported twice.
   */
  lemma NotificationGrammar(tr: seq<Connector>, i: nat, k: nat)
    returns (whole: seq<seq<nat>>, open: Option<seq<nat>>)
    requires IsRun(tr) && i < |tr| && k <= |tr[i].posted|
    ensures tr[i].posted[..k] == Render(whole, open)
    ensures var notes := tr[i].posted;
            forall a, b :: 0 <= a < b < |notes| && notes[a].NewConnection? && notes[b].NewConnection? ==>
              notes[a].id != notes[b].id
  {
    Always(tr, i);
    PrefixInOrder(tr[i].posted, k);
    whole, open := PhaseIsGrammar(tr[i].posted[..k]);
  }

  /** At most one token that has taken effect is true, and it is the connector's current one. */
  lemma OneGenerationRuns(tr: seq<Connector>, i: nat, a: nat, b: nat)
    requires IsRun(tr) && i < |tr| && a < |tr[i].tokens| && b < |tr[i].tokens|
    ensures tr[i].tokens[a] && tr[i].tokens[b] ==> a == b && tr[i].current == Some(a)
    ensures tr[i].current.Some? ==> tr[i].current.value < |tr[i].tokens| && tr[i].tokens[tr[i].current.value]
  {
    Always(tr, i);
  }

  /**
   A failing accept or a late stop of another generation than the one running changes neither the
   tokens nor what is posted.
   */
  lemma StaleFailuresAreHarmless(tr: seq<Connector>, i: nat, ev: Event)
    requires IsRun(tr) && i < |tr| && Enabled(tr[i], ev)
    requires ev.PipeFailed? || ev.StopCall?
    ensures var c, c' := tr[i], Next(tr[i], ev);
            var tok := if ev.PipeFailed? then c.progress[ev.id].tok else ev.tok;
            c.current != Some(tok) ==>
              c'.tokens == c.tokens && c'.current == c.current && c'.posted == c.posted && c'.futures == c.futures
  {
    Always(tr, i);
  }

  /** A connection is reported only in the generation its accept was issued in. */
  lemma ReportedInItsGeneration(tr: seq<Connector>, i: nat, k: nat)
    requires IsRun(tr) && i < |tr| && k < |tr[i].posted| && tr[i].posted[k].NewConnection?
    ensures tr[i].posted[k].id in tr[i].gen
    ensures Starts(tr[i].posted[..k]) == tr[i].gen[tr[i].posted[k].id] + 1
  {
    Always(tr, i);
    assert ReportOk(tr[i], k);
  }
}
