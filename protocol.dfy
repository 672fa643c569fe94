/**
  The vocabulary shared by the server (app.js) and the browser client
  (public/javascripts/chessgame.js): colours as the rules engine reports
  them, the move descriptor a client sends, and the socket events.
 */
module Protocol {
  import opened Wrappers

  /** A socket.io connection id. Ids are never empty, which is what makes the
      truthiness test on a role slot the same as "the slot is free". */
  type ConnId = s: string | s != [] witness "0"

  /** A side of the board, as chess.js's `turn()` and a piece's `color` give it. */
  datatype Colour = White | Black

  function Opponent(c: Colour): (o: Colour)
    ensures o != c
  {
    if c == White then Black else White
  }

  /** The name the server puts in a checkmate's `winner` field. */
  function Name(c: Colour): (s: string)
    ensures s == "White" <==> c == White
    ensures s == "Black" <==> c == Black
  {
    match c
    case White => "White"
    case Black => assert "Black"[0] == 'B'; "Black"
  }

  /** The `{from, to, promotion}` object a client emits as "move". */
  datatype MoveMsg = MoveMsg(from: string, to: string, promotion: string)

  /** The `result` field of a "gameOver" event. */
  datatype GameResult = Checkmate | Stalemate | Draw

  /** The string the server puts on the wire for a result. */
  function ResultName(k: GameResult): (s: string)
    ensures s == "checkmate" <==> k == Checkmate
    ensures s == "stalemate" <==> k == Stalemate
    ensures s == "draw" <==> k == Draw
  {
    match k
    case Checkmate => "checkmate"
    case Stalemate => "stalemate"
    case Draw => "draw"
  }

  /** The events a server emits. The two "invalid move" notices of the source
      (sent under ad-hoc names that no client listens for) are one event here. */
  datatype Event =
    | PlayerRole(role: Colour)
    | SpectatorRole
    | MoveMade(move: MoveMsg)
    | BoardState(fen: string)
    | GameOver(result: GameResult, winner: Option<string>)
    | InvalidMove(move: MoveMsg)
    | GameRestarted

  /** `io.emit` sends to every connection, `socket.emit` to one. */
  datatype Audience = Everyone | Only(id: ConnId)

  datatype Emit = Emit(to: Audience, event: Event)
}
