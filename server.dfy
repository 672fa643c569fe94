/**
  The session server of app.js. It keeps three pieces of shared state that
  its socket handlers update one at a time on the event loop: the role table
  `player` with its two slots `white` and `black`, the variable
  `currentPlayer`, and the position held by the chess.js object `chess`.

  chess.js itself is not modelled: it is an oracle, a value of type
  `Engine<P>` whose functions answer the calls app.js makes, over a position
  type `P` that the model never looks inside. What the socket handlers emit is
  returned as a sequence of `Emit`s, in emission order.

  The pure functions `Connect`, `Disconnect`, `Move` and `Restart` state what
  each handler does; the class `Session` holds the state and its methods are
  proved to update it exactly as those functions say.
 */
module Server {
  import opened Wrappers
  import opened Protocol

  /** What chess.js's `move` does with a requested move: apply it and yield
      the new position, or refuse it. Both ways the library can refuse (a null
      result and a thrown error) end in the same branch of app.js. */
  datatype Verdict<P> = Accepted(next: P) | Rejected

  /** chess.js, seen only through the calls app.js makes on it. */
  datatype Engine<!P> = Engine(
    initial: P,                        // the position of `new Chess()` and of `reset()`
    turn: P -> Colour,                 // `turn()`
    move: (P, MoveMsg) -> Verdict<P>,  // `move(m)`
    isCheckmate: P -> bool,            // `isCheckmate()`
    isStalemate: P -> bool,            // `isStalemate()`
    isDraw: P -> bool,                 // `isDraw()`
    fen: P -> string)                  // `fen()`

  // ----------------------------------------------------------------------
  // The role table
  // ----------------------------------------------------------------------

  /** The object `player`: a slot is `None` while its property is absent. */
  datatype Table = Table(white: Option<ConnId>, black: Option<ConnId>)

  function Holder(t: Table, c: Colour): Option<ConnId>
  {
    if c == White then t.white else t.black
  }

  predicate Holds(t: Table, id: ConnId)
  {
    t.white == Some(id) || t.black == Some(id)
  }

  /** The ids that hold a slot. */
  function Holders(t: Table): set<ConnId>
  {
    (if t.white.Some? then {t.white.value} else {}) + (if t.black.Some? then {t.black.value} else {})
  }

  /** Each slot holds at most one id by construction; this adds that no id
      holds both. */
  predicate Distinct(t: Table)
  {
    t.white.Some? && t.black.Some? ==> t.white.value != t.black.value
  }

  /** The table is consistent with the connections that are open: no id
      holds both colours, and every slot is held by an open connection. */
  predicate Seated(t: Table, live: set<ConnId>)
  {
    Distinct(t) && Holders(t) <= live
  }

  datatype Role = Player(colour: Colour) | Spectator

  /** The notice a new connection receives about its role. */
  function RoleEvent(r: Role): (ev: Event)
    ensures ev.PlayerRole? <==> r.Player?
    ensures ev.SpectatorRole? <==> r.Spectator?
    ensures r.Player? ==> ev.role == r.colour
  {
    match r
    case Player(c) => PlayerRole(c)
    case Spectator => SpectatorRole
  }

  datatype Joined = Joined(table: Table, role: Role)

  /** The connection handler's role assignment: the first free slot, white
      before black, or else a spectator. */
  function Connect(t: Table, id: ConnId): (j: Joined)
    ensures j.role.Spectator? <==> t.white.Some? && t.black.Some?
    ensures j.role == Player(White) <==> t.white.None?
    ensures j.role.Spectator? ==> j.table == t
    ensures j.role.Player? ==>
      && Holder(t, j.role.colour).None?
      && Holder(j.table, j.role.colour) == Some(id)
      && Holder(j.table, Opponent(j.role.colour)) == Holder(t, Opponent(j.role.colour))
    // an occupied slot is never overwritten
    ensures t.white.Some? ==> j.table.white == t.white
    ensures t.black.Some? ==> j.table.black == t.black
  {
    if t.white.None? then Joined(t.(white := Some(id)), Player(White))
    else if t.black.None? then Joined(t.(black := Some(id)), Player(Black))
    else Joined(t, Spectator)
  }

  /** The disconnect handler: the slot the departing id held is freed; white
      is tested first. */
  function Disconnect(t: Table, id: ConnId): (r: Table)
    ensures t.white == Some(id) ==> r == t.(white := None)
    ensures t.white != Some(id) && t.black == Some(id) ==> r == t.(black := None)
    ensures !Holds(t, id) ==> r == t
    ensures Holders(r) <= Holders(t)
    ensures Distinct(t) ==> Distinct(r) && !Holds(r, id)
  {
    if t.white == Some(id) then t.(white := None)
    else if t.black == Some(id) then t.(black := None)
    else t
  }

  // ----------------------------------------------------------------------
  // Moves and restarts
  // ----------------------------------------------------------------------

  /** The globals of app.js: the role table, `currentPlayer` and the engine's
      position. */
  datatype ServerState<P> = ServerState(table: Table, currentPlayer: Colour, position: P)

  /** Start-up: no slot taken, `currentPlayer` "w", a fresh engine. */
  function Initial<P>(e: Engine<P>): (s: ServerState<P>)
    ensures Holders(s.table) == {} && Seated(s.table, {})
    ensures s.currentPlayer == White && s.position == e.initial
  {
    ServerState(Table(None, None), White, e.initial)
  }

  /** The state after a handler, with what the handler emitted. */
  datatype Step<P> = Step(state: ServerState<P>, out: seq<Emit>)

  /** The move guard: the two early returns of the "move" handler let a
      move through iff the sender holds the slot of the side to move. */
  function MayMove<P>(e: Engine<P>, s: ServerState<P>, id: ConnId): (r: bool)
    ensures r <==> Holder(s.table, e.turn(s.position)) == Some(id)
    ensures r ==> Holds(s.table, id)
  {
    !(e.turn(s.position) == White && s.table.white != Some(id)) &&
    !(e.turn(s.position) == Black && s.table.black != Some(id))
  }

  /** The classification after an accepted move: checkmate first, then
      stalemate, then draw. A mate is always of the side to move, so the
      winner is the other side. */
  function GameOverNotice<P>(e: Engine<P>, p: P): (r: Option<Event>)
    ensures r.Some? ==> r.value.GameOver?
    ensures r.None? <==> !e.isCheckmate(p) && !e.isStalemate(p) && !e.isDraw(p)
    ensures r.Some? && r.value.result == Checkmate <==> e.isCheckmate(p)
    ensures r.Some? && r.value.result == Stalemate <==> !e.isCheckmate(p) && e.isStalemate(p)
    ensures r.Some? && r.value.result == Draw <==> !e.isCheckmate(p) && !e.isStalemate(p) && e.isDraw(p)
    ensures r.Some? && r.value.result == Checkmate ==> r.value.winner == Some(Name(Opponent(e.turn(p))))
    ensures r.Some? && r.value.result != Checkmate ==> r.value.winner == None
  {
    if e.isCheckmate(p) then
      var winner := if e.turn(p) == White then "Black" else "White";
      Some(GameOver(Checkmate, Some(winner)))
    else if e.isStalemate(p) then Some(GameOver(Stalemate, None))
    else if e.isDraw(p) then Some(GameOver(Draw, None))
    else None
  }

  /** The "move" handler. An out-of-turn or spectator's move returns before
      the engine is consulted; a refused move is reported to its sender only;
      an accepted one is broadcast as the move, then the new position, then at
      most one game-over notice. The role table is never touched. */
  function Move<P>(e: Engine<P>, s: ServerState<P>, id: ConnId, mv: MoveMsg): (r: Step<P>)
    ensures r.state.table == s.table
    ensures !MayMove(e, s, id) ==> r == Step(s, [])
    ensures MayMove(e, s, id) && e.move(s.position, mv).Rejected? ==>
      r == Step(s, [Emit(Only(id), InvalidMove(mv))])
    ensures MayMove(e, s, id) && e.move(s.position, mv).Accepted? ==>
      var p := e.move(s.position, mv).next;
      && r.state == ServerState(s.table, e.turn(p), p)
      && 2 <= |r.out| <= 3
      && r.out[0] == Emit(Everyone, MoveMade(mv))
      && r.out[1] == Emit(Everyone, BoardState(e.fen(p)))
      && (|r.out| == 3 <==> GameOverNotice(e, p).Some?)
      && (|r.out| == 3 ==> r.out[2] == Emit(Everyone, GameOverNotice(e, p).value))
  {
    var turn := e.turn(s.position);
    if turn == White && s.table.white != Some(id) then Step(s, [])
    else if turn == Black && s.table.black != Some(id) then Step(s, [])
    else
      match e.move(s.position, mv)
      case Rejected => Step(s, [Emit(Only(id), InvalidMove(mv))])
      case Accepted(p) =>
        var broadcast := [Emit(Everyone, MoveMade(mv)), Emit(Everyone, BoardState(e.fen(p)))];
        var over := GameOverNotice(e, p);
        Step(ServerState(s.table, e.turn(p), p),
             if over.Some? then broadcast + [Emit(Everyone, over.value)] else broadcast)
  }

  /** The "restartGame" handler, accepted from any connection: the engine is
      reset and everyone receives the initial position. */
  function Restart<P>(e: Engine<P>, s: ServerState<P>): (r: Step<P>)
    ensures r.state.table == s.table && r.state.currentPlayer == s.currentPlayer
    ensures r.state.position == e.initial
    ensures r.out == [Emit(Everyone, BoardState(e.fen(e.initial))), Emit(Everyone, GameRestarted)]
  {
    Step(s.(position := e.initial), [Emit(Everyone, BoardState(e.fen(e.initial))), Emit(Everyone, GameRestarted)])
  }

  // ----------------------------------------------------------------------
  // Runs of handlers
  // ----------------------------------------------------------------------

  /** One socket event reaching the server. */
  datatype Action = Join(id: ConnId) | Leave(id: ConnId) | Play(id: ConnId, move: MoveMsg) | RestartGame

  function Apply<P>(e: Engine<P>, s: ServerState<P>, a: Action): (r: Step<P>)
    ensures a.Join? ==> r.state.table == Connect(s.table, a.id).table
    ensures a.Join? ==> r.out == [Emit(Only(a.id), RoleEvent(Connect(s.table, a.id).role))]
    ensures a.Leave? ==> r.state.table == Disconnect(s.table, a.id)
    ensures a.Leave? ==> r.out == []
    ensures a.Join? || a.Leave? ==> r.state.position == s.position
    ensures !a.Play? ==> r.state.currentPlayer == s.currentPlayer
    ensures !a.Join? && !a.Leave? ==> r.state.table == s.table
    ensures !a.RestartGame? && r.state.position != s.position ==>
      a.Play? && MayMove(e, s, a.id) && e.move(s.position, a.move) == Accepted(r.state.position)
  {
    match a
    case Join(id) =>
      var j := Connect(s.table, id);
      Step(s.(table := j.table), [Emit(Only(id), RoleEvent(j.role))])
    case Leave(id) => Step(s.(table := Disconnect(s.table, id)), [])
    case Play(id, mv) => Move(e, s, id, mv)
    case RestartGame => Restart(e, s)
  }

  /** The handlers of `acts` run one after the other from `s`: the final state
      and everything emitted, in order. */
  function Run<P>(e: Engine<P>, s: ServerState<P>, acts: seq<Action>): Step<P>
    decreases |acts|
  {
    if acts == [] then Step(s, [])
    else
      var first := Apply(e, s, acts[0]);
      var rest := Run(e, first.state, acts[1..]);
      Step(rest.state, first.out + rest.out)
  }

  /** The open connections once `a` has been handled: a connect opens one,
      a disconnect closes one. */
  function Admit(live: set<ConnId>, a: Action): set<ConnId>
  {
    match a
    case Join(id) => live + {id}
    case Leave(id) => live - {id}
    case _ => live
  }

  /** The open connections after the whole of `acts`. */
  function Connected(live: set<ConnId>, acts: seq<Action>): set<ConnId>
    decreases |acts|
  {
    if acts == [] then live else Connected(Admit(live, acts[0]), acts[1..])
  }

  /** socket.io never gives a new connection the id of an open one. */
  predicate FreshJoins(live: set<ConnId>, acts: seq<Action>)
    decreases |acts|
  {
    acts == [] || ((acts[0].Join? ==> acts[0].id !in live) && FreshJoins(Admit(live, acts[0]), acts[1..]))
  }

  // ----------------------------------------------------------------------
  // Properties
  // ----------------------------------------------------------------------

  /** Every handler keeps the table consistent with the open connections,
      given a fresh id on connect; in particular a disconnect frees the
      departing id's slot. */
  lemma ApplyKeepsSeated<P>(e: Engine<P>, s: ServerState<P>, live: set<ConnId>, a: Action)
    requires Seated(s.table, live)
    requires a.Join? ==> a.id !in live
    ensures Seated(Apply(e, s, a).state.table, Admit(live, a))
  {
    if a.Join? {
      var t := s.table;
      var j := Connect(t, a.id);
      assert a.id !in Holders(t);
      assert Holders(j.table) <= Holders(t) + {a.id};
    }
  }

  /** Over any run of handlers with fresh connection ids, no connection ever
      holds both colours, and every slot is held by a connection that is
      still open. */
  lemma {:induction false} RunKeepsSeated<P>(e: Engine<P>, s: ServerState<P>, live: set<ConnId>, acts: seq<Action>)
    requires Seated(s.table, live)
    requires FreshJoins(live, acts)
    ensures Seated(Run(e, s, acts).state.table, Connected(live, acts))
    decreases |acts|
  {
    if acts != [] {
      ApplyKeepsSeated(e, s, live, acts[0]);
      RunKeepsSeated(e, Apply(e, s, acts[0]).state, Admit(live, acts[0]), acts[1..]);
    }
  }

  /** A connection that holds no slot can never move, whatever it sends. */
  lemma SpectatorCannotMove<P>(e: Engine<P>, s: ServerState<P>, id: ConnId, mv: MoveMsg)
    requires !Holds(s.table, id)
    ensures Move(e, s, id, mv) == Step(s, [])
  {
  }

  /** While the slot of the side to move is free, every move is ignored. */
  lemma EmptySlotBlocksMoves<P>(e: Engine<P>, s: ServerState<P>, id: ConnId, mv: MoveMsg)
    requires Holder(s.table, e.turn(s.position)).None?
    ensures Move(e, s, id, mv) == Step(s, [])
  {
  }

  /** A seated connection that leaves gives the table back as it was. */
  lemma DisconnectUndoesConnect(t: Table, id: ConnId)
    requires !Holds(t, id)
    ensures Disconnect(Connect(t, id).table, id) == t
  {
  }

  /** A freed slot goes to the next connection (white when both are free). */
  lemma FreedSlotIsReassigned(t: Table, id: ConnId, next: ConnId)
    requires Distinct(t) && Holds(t, id)
    ensures Connect(Disconnect(t, id), next).role.Player?
    ensures t.white == Some(id) ==> Connect(Disconnect(t, id), next).role == Player(White)
  {
  }

  /** A restart resets the position only; restarting twice is restarting once. */
  lemma RestartIsIdempotent<P>(e: Engine<P>, s: ServerState<P>)
    ensures Restart(e, Restart(e, s).state) == Restart(e, s)
  {
  }

  /** The opening of a session: A, B and C connect in turn and are told
      "w", "b" and spectator; B then moves while white is to move and the
      server stays silent. */
  lemma OpeningScenario<P>(e: Engine<P>, a: ConnId, b: ConnId, c: ConnId, mv: MoveMsg)
    requires a != b && b != c && a != c
    requires e.turn(e.initial) == White
    ensures var r := Run(e, Initial(e), [Join(a), Join(b), Join(c), Play(b, mv)]);
      && r.state == ServerState(Table(Some(a), Some(b)), White, e.initial)
      && r.out == [Emit(Only(a), PlayerRole(White)), Emit(Only(b), PlayerRole(Black)), Emit(Only(c), SpectatorRole)]
  {
    var acts := [Join(a), Join(b), Join(c), Play(b, mv)];
    var s1 := ServerState(Table(Some(a), None), White, e.initial);
    var s2 := ServerState(Table(Some(a), Some(b)), White, e.initial);
    assert Run(e, s2, acts[3..]) == Step(s2, []) by {
      assert acts[3..][1..] == [];
    }
    assert Run(e, s2, acts[2..]) == Step(s2, [Emit(Only(c), SpectatorRole)]) by {
      assert acts[2..][1..] == acts[3..];
    }
    assert Run(e, s1, acts[1..]) == Step(s2, [Emit(Only(b), PlayerRole(Black)), Emit(Only(c), SpectatorRole)]) by {
      assert acts[1..][1..] == acts[2..];
    }
  }

  // ----------------------------------------------------------------------
  // The server as app.js runs it
  // ----------------------------------------------------------------------

  /** The module-level state of app.js and its socket handlers. */
  class Session<P> {
    const rules: Engine<P>
    var white: Option<ConnId>
    var black: Option<ConnId>
    var currentPlayer: Colour
    var position: P
    /** The connections that are open. */
    ghost var live: set<ConnId>

    ghost predicate Valid()
      reads this
    {
      Seated(Table(white, black), live)
    }

    function Snapshot(): ServerState<P>
      reads this
    {
      ServerState(Table(white, black), currentPlayer, position)
    }

    constructor(rules: Engine<P>)
      ensures Valid() && this.rules == rules && live == {}
      ensures Snapshot() == Initial(rules)
    {
      this.rules := rules;
      white, black := None, None;
      currentPlayer := White;
      position := rules.initial;
      live := {};
    }

    /** io.on("connection"): assign the first free slot and tell the
        newcomer its role. */
    method OnConnect(id: ConnId) returns (out: seq<Emit>)
      requires Valid() && id !in live
      modifies this
      ensures Valid() && live == old(live) + {id}
      ensures Step(Snapshot(), out) == Apply(rules, old(Snapshot()), Join(id))
    {
      if white.None? {
        white := Some(id);
        out := [Emit(Only(id), PlayerRole(White))];
      } else if black.None? {
        black := Some(id);
        out := [Emit(Only(id), PlayerRole(Black))];
      } else {
        out := [Emit(Only(id), SpectatorRole)];
      }
      live := live + {id};
    }

    /** The "disconnect" handler. */
    method OnDisconnect(id: ConnId)
      requires Valid()
      modifies this
      ensures Valid() && live == old(live) - {id}
      ensures Step(Snapshot(), []) == Apply(rules, old(Snapshot()), Leave(id))
    {
      if white == Some(id) {
        white := None;
      } else if black == Some(id) {
        black := None;
      }
      live := live - {id};
    }

    /** The "move" handler. */
    method OnMove(id: ConnId, mv: MoveMsg) returns (out: seq<Emit>)
      requires Valid()
      modifies this
      ensures Valid() && live == old(live)
      ensures Step(Snapshot(), out) == Apply(rules, old(Snapshot()), Play(id, mv))
    {
      if rules.turn(position) == White && white != Some(id) {
        return [];
      }
      if rules.turn(position) == Black && black != Some(id) {
        return [];
      }
      var result := rules.move(position, mv);
      if result.Accepted? {
        position := result.next;
        currentPlayer := rules.turn(position);
        out := [Emit(Everyone, MoveMade(mv)), Emit(Everyone, BoardState(rules.fen(position)))];
        if rules.isCheckmate(position) {
          var winner := if rules.turn(position) == White then "Black" else "White";
          out := out + [Emit(Everyone, GameOver(Checkmate, Some(winner)))];
        } else if rules.isStalemate(position) {
          out := out + [Emit(Everyone, GameOver(Stalemate, None))];
        } else if rules.isDraw(position) {
          out := out + [Emit(Everyone, GameOver(Draw, None))];
        }
      } else {
        out := [Emit(Only(id), InvalidMove(mv))];
      }
    }

    /** The "restartGame" handler. */
    method OnRestart() returns (out: seq<Emit>)
      requires Valid()
      modifies this
      ensures Valid() && live == old(live)
      ensures Step(Snapshot(), out) == Apply(rules, old(Snapshot()), RestartGame)
    {
      position := rules.initial;
      out := [Emit(Everyone, BoardState(rules.fen(position))), Emit(Everyone, GameRestarted)];
    }
  }
}
