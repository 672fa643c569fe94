# Two-player chess relay: session protocol and client decisions

This project models the logic of a small networked chess game. The server
(`app.js`) keeps one shared position in the chess.js rules engine. It keeps a
two-slot role table `player.white` / `player.black` of socket ids and a
variable `currentPlayer`. Its socket handlers do four things:

- seat each new connection in the first free slot, white before black, or
  make it a spectator;
- free a departing connection's slot;
- pass a move to the engine only when it comes from the holder of the slot
  of the side to move;
- after an accepted move, broadcast the move, the new position and at most one
  game-over notice (checkmate before stalemate before draw).

"restartGame" resets the position and broadcasts it.

The browser client (`public/javascripts/chessgame.js`) covers the rest:

- turns drag coordinates into square names such as `e2` and always promotes
  to a queen;
- shades squares by parity;
- lets a player drag only pieces of their own colour;
- flips the board for black;
- shows "Your turn" / "Opponent's turn";
- titles the game-over overlay.

The model is laid out as follows:

- `wrappers.dfy`: `Option`, for JavaScript's absent values.
- `protocol.dfy`: connection ids (non-empty strings), colours, the move
  descriptor `{from, to, promotion}` and the socket events. An emitted event is
  paired with its audience: everyone (`io.emit`) or one socket.
- `server.dfy`: the rules engine as an oracle, and the handlers as pure
  functions (`Connect`, `Disconnect`, `Move`, `Restart`, `GameOverNotice`).
  `Apply` and `Run` are one handler and a run of handlers. There are lemmas
  about these, and a class `Session` holding app.js's globals. Each handler
  method of `Session` is proved to change the state and emit exactly as its
  function says.
- `client.dfy`: the client's decisions as functions. `RenderBoard` is a
  method with the source's two nested loops. A class `ClientState` holds
  `playerRole`, `draggedPiece`, `sourceSquare` and the text the handlers write.
- `relay.dfy`: lemmas that connect the two sides.

The rules engine is `Engine<P>`, a record of total functions over an abstract
position type `P`. It stands for the calls app.js makes: `turn`, `move`
(accepted with a new position, or rejected), `isCheckmate`, `isStalemate`,
`isDraw`, `fen`, and the initial position of `new Chess()` / `reset()`. The
client's own engine appears only through the answer a handler reads from it
(`board()`, `turn()`), which is passed in as a parameter.

Socket ids are unique in socket.io: a new connection never has the id of an
open one. The model records the open connections in a ghost set. A connect
adds its id, and a disconnect removes it. Connecting requires an id that is
not open. From this it follows that no connection ever holds both colours,
and that every slot is held by a connection that is still open
(`Server.RunKeepsSeated`). Each colour has at most one holder by construction:
a slot holds one id.

Observations the model makes explicit:

- `currentPlayer` is assigned after every accepted move but never read, and
  restart does not reset it. After a restart it can say "b" while the engine
  has white to move. The move guard reads the engine's `turn()`, so
  nothing depends on it.
- chess.js reports piece types in lower case. `getPieceUnicode` looks up
  `piece.type`, so white and black pieces both get the filled figure of their
  kind, and the table's upper-case entries are never used
  (`Client.GlyphIgnoresColour`). Colour shows only through the CSS class
  "white"/"black".
- A client that receives "gameOver" keeps its overlay visible after
  "gameRestarted". Only the client that asked for the restart hides it.

The client listens for "waiting" and "connected"
(public/javascripts/chessgame.js:115-121), but app.js never emits either. Its
disconnect handler (app.js:36-42) emits nothing. The model follows app.js:
neither `Disconnect` nor `Session.OnDisconnect` emits. The code treats an
illegal move and an out-of-turn move differently. An out-of-turn move is
ignored. A move the engine rejects gets a notice sent to the sender only.

## Model

| member | source | states |
|---|---|---|
| Server.Connect | app.js:27-35 | the new id gets white if white is free, else black if black is free, else it is a spectator and the table is unchanged; the role event matches the slot taken; an occupied slot is never overwritten |
| Server.Disconnect | app.js:36-42 | the departing id's slot is freed (white tested first), nothing else changes, a non-holder changes nothing; the set of holders only shrinks and no-one-holds-both is kept |
| Server.GameOverNotice | app.js:54-64 | no notice iff the position is neither mate, stalemate nor draw; checkmate takes priority over stalemate over draw; a mate's winner is the side not to move; stalemate and draw carry no winner |
| Server.Move | app.js:43-73 | the role table is never changed; a move from anyone but the holder of the side-to-move slot changes nothing and emits nothing; a rejected move changes nothing and notifies only the sender; an accepted one sets the position and `currentPlayer` to the engine's new side to move and broadcasts the move, then the position, then the game-over notice exactly when there is one |
| Server.Restart | app.js:74-78 | the position becomes the engine's initial one; the role table and `currentPlayer` are unchanged; everyone receives the initial position and then "gameRestarted" |
| Server.Apply | app.js:24-79 | a connect seats the newcomer as `Connect` does and emits exactly its role notice; a disconnect frees the slot as `Disconnect` does and emits nothing; connects and disconnects keep the position; only a move changes `currentPlayer`, and only connects and disconnects change the table; outside restart the position changes only by an authorised move the engine accepted |
| Server.ApplyKeepsSeated | app.js:27-78 | every handler keeps "no id holds both colours and every slot is held by an open connection", given a fresh id on connect; a disconnect closes the connection and frees its slot |
| Server.RunKeepsSeated | app.js:27-42 | over any run of handlers from a consistent table with fresh connection ids, no connection ever holds both colours and every slot is held by a connection still open after the run |
| Server.MayMove | app.js:45-46 | the two early returns let a move through iff the sender holds the slot of the side to move; so only a seated connection can get through |
| Server.RoleEvent | app.js:29-34 | a seated connection is sent "playerRole" with its own colour; a spectator is sent "spectatorRole" |
| Server.Initial | app.js:12-15 | at start-up no slot is held (the table is consistent with no open connections), `currentPlayer` is white and the position is the engine's initial one |
| Protocol.Name | app.js:55 | the winner strings: "White" exactly for white and "Black" exactly for black |
| Server.SpectatorCannotMove | app.js:45-46 | a connection holding no slot can never move: its move changes nothing and emits nothing |
| Server.EmptySlotBlocksMoves | app.js:45-46 | while the slot of the side to move is free, every move is ignored |
| Server.DisconnectUndoesConnect | app.js:27-42 | a connection that leaves gives the table back as it was before it connected |
| Server.FreedSlotIsReassigned | app.js:27-42 | the slot a leaving holder frees goes to the next connection, white first |
| Server.RestartIsIdempotent | app.js:74-78 | restarting twice is the same as restarting once |
| Server.OpeningScenario | app.js:24-46 | three connections get white, black and spectator in turn; an out-of-turn move by black is met with silence and no state change |
| Server.Session.constructor | app.js:12-15 | start-up state: both slots free, `currentPlayer` white, the engine's initial position |
| Server.Session.OnConnect | app.js:27-35 | the handler updates the slots and emits exactly as `Connect`, keeping the table consistent |
| Server.Session.OnDisconnect | app.js:36-42 | the handler updates the slots as `Disconnect`, closes the connection and keeps the table consistent with the open connections |
| Server.Session.OnMove | app.js:43-73 | the handler updates position, `currentPlayer` and emits exactly as `Move` |
| Server.Session.OnRestart | app.js:74-78 | the handler resets the position and emits exactly as `Restart` |
| Protocol.ResultName | app.js:54-64 | the `result` strings of the three game-over kinds are "checkmate", "stalemate" and "draw" |
| Client.SquareName | public/javascripts/chessgame.js:76-77 | a square name is two characters: a file letter a..h and a rank digit 1..8 |
| Client.ParseSquare | public/javascripts/chessgame.js:76-77 | the names read back are exactly the two-character strings of a file a..h and a rank 1..8 |
| Client.ParseSquareName | public/javascripts/chessgame.js:76-77 | column = code(file) - 97 and row = 8 - rank recover the coordinates from a square name |
| Client.SquareNameOfParse | public/javascripts/chessgame.js:76-77 | every valid square name is the name of the coordinates read from it |
| Client.SquareNameInjective | public/javascripts/chessgame.js:76-77 | two coordinates have the same name iff they are equal |
| Client.HandleMove | public/javascripts/chessgame.js:74-82 | the move sent promotes to "q", its squares read back as the source and target, and `from` equals `to` iff source and target coincide |
| Client.SquareShade | public/javascripts/chessgame.js:20 | a square is light iff its row and column have the same parity, that is iff row + column is even |
| Client.Draggable | public/javascripts/chessgame.js:34 | only a set role can drag, and then exactly the pieces of its colour |
| Client.Flipped | public/javascripts/chessgame.js:69-70 | the board is flipped exactly for the role that drags the black pieces, and never for the one that drags white |
| Client.AdjacentSquaresDiffer | public/javascripts/chessgame.js:20 | orthogonally adjacent squares have opposite shades |
| Client.CornerShades | public/javascripts/chessgame.js:20 | a1 is dark and h1 light |
| Client.SpectatorDragsNothing | public/javascripts/chessgame.js:34 | with no role, no piece is draggable |
| Client.OneColourDraggable | public/javascripts/chessgame.js:34 | at most one colour's pieces are draggable |
| Client.PieceUnicode | public/javascripts/chessgame.js:85-101 | the lookup hits exactly the twelve keys p r n b q k P R N B Q K (filled figures under lower case, outlined under upper case) and gives the "" default otherwise |
| Client.GlyphIgnoresColour | public/javascripts/chessgame.js:85-101 | every chess.js piece, white or black, gets the filled figure of its kind |
| Client.SquareViewOf | public/javascripts/chessgame.js:15-49 | a square element carries its coordinates and parity shade; it has a piece element iff the square has a piece, with that piece's colour and figure, draggable iff the role equals the piece's colour |
| Client.RenderBoard | public/javascripts/chessgame.js:11-71 | 64 square elements in row-major order, element 8r+c describing square (r, c); a piece is draggable iff it has the role's colour, so none is without a role; the board is flipped iff the role is black |
| Client.TurnStatus | public/javascripts/chessgame.js:126-129 | with a role, the status is "Your turn" iff the side to move is the role and "Opponent's turn" otherwise; without a role the status is left as it was |
| Client.GameOverTitle | public/javascripts/chessgame.js:144-150 | the title is "Checkmate!" iff the result is "checkmate", and "Draw!" for any other result, stalemate included |
| Client.GameOverText | public/javascripts/chessgame.js:144-150 | a winner is announced iff the result is "checkmate", and the winner announced is the one received |
| Client.ClientState.constructor | public/javascripts/chessgame.js:6-8 | on page load there is no role and no drag |
| Client.ClientState.OnPlayerRole | public/javascripts/chessgame.js:104-107 | the role is stored, nothing else changes, and the re-render draws every square as `SquareViewOf` with the new role, making exactly the role's pieces draggable, and flips for black |
| Client.ClientState.OnSpectatorRole | public/javascripts/chessgame.js:109-113 | the role becomes null and the status "Spectating"; the re-render draws every square as `SquareViewOf` with no role, makes no piece draggable and does not flip |
| Client.ClientState.OnWaiting | public/javascripts/chessgame.js:115-117 | only the status changes, to "Waiting for opponent..." |
| Client.ClientState.OnConnected | public/javascripts/chessgame.js:119-121 | only the status changes, to "Opponent connected" |
| Client.ClientState.OnBoardState | public/javascripts/chessgame.js:123-132 | only the status changes, as `TurnStatus` decides for the loaded position's side to move; the loaded board is redrawn square by square as `SquareViewOf` with the current role, flipped iff the role is black |
| Client.ClientState.OnGameOver | public/javascripts/chessgame.js:139-153 | the overlay is shown with the title and text for the result; the role and drag are untouched |
| Client.ClientState.OnGameRestarted | public/javascripts/chessgame.js:155-158 | only the status changes, to "Game restarted"; the overlay stays as it was; the board is redrawn square by square as `SquareViewOf` with the current role |
| Client.ClientState.OnDragStart | public/javascripts/chessgame.js:36-41 | a drag of a piece the player may move records the piece and its square; a drag of any other piece changes nothing |
| Client.ClientState.OnDragEnd | public/javascripts/chessgame.js:43-46 | the dragged piece and source square are both reset |
| Client.ClientState.OnDrop | public/javascripts/chessgame.js:53-63 | a move is sent iff a dragged piece and a source square are both set, which, since the two are set and cleared together, is iff a piece is being dragged; it is the `HandleMove` of the source and the drop square |
| Relay.YourTurnIffServerAcceptsSender | app.js:45-46 | a seated player's client shows "Your turn" exactly when the server's move guard would let that player's moves through |
| Relay.OverlayForServerNotice | app.js:54-64 | for the server's game-over notice the client titles "Checkmate!" iff the engine reports mate, names the side not to move as winner, and shows the draw message otherwise |

## Left out

- The chess.js rules engine on both sides: move legality, mate, stalemate and draw detection, FEN `fen()`/`load()`, `board()` and `reset()`. It is a foreign library and is an uninterpreted oracle here.
- HTTP, Express, EJS and static serving (app.js:1-22, 81-83), and the socket.io transport. Emitted events are a returned sequence.
- DOM construction and mutation, event-listener registration, `dataTransfer` and the `parseInt` of dataset strings (public/javascripts/chessgame.js:13-18, 23-33, 48-51, 65). Only the decision each line encodes is modelled.
- The glyph strings of `getPieceUnicode` are abstracted to the figure each key stands for (filled or outlined, and of which kind). Their text encoding is not modelled.
- The client's "move" handler (public/javascripts/chessgame.js:134-137): it only replays a move in the client's engine. The page's `restartGame()` (public/javascripts/chessgame.js:161-166) only emits "restartGame" and hides the overlay locally; it is not modelled.
- `console.log` and the names of the two invalid-move notices (app.js:66-67, 71). Both notices become one `InvalidMove` event sent to the sender only. A move the engine returns null for and a move it throws on are one `Rejected` verdict.
- The "move" payload: app.js passes whatever the client sent to the engine's `move` and echoes it in "move" (app.js:43, 48, 51), and chess.js would also take a move in algebraic notation there. The model types the payload as the `{from, to, promotion}` record the client builds. With the engine as an oracle, no proof depends on the payload's shape.
- Concurrency: the event loop runs one handler at a time, which the sequential model already assumes.
- Client.RenderBoard: requires the 8-by-8 shape that chess.js's `board()` always has, rather than iterating arbitrary nested arrays.
- Client.ClientState.OnDragStart: reads whether a piece is draggable as `Draggable(playerRole, colour)`. In the source it reads the element's flag from the latest render. The two agree because every handler that changes `playerRole` renders again.
