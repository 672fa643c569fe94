/**
  The browser side, public/javascripts/chessgame.js: the decisions its DOM
  code encodes (square names, square shades, which pieces may be dragged,
  board flipping, the status line, the game-over title) and the module-level
  variables `playerRole`, `draggedPiece` and `sourceSquare` that its socket
  and drag handlers reassign.

  The client's own chess.js object is an oracle here too: where a handler
  consults it, its answer (`board()`, `turn()`) is a parameter.
 */
module Client {
  import opened Wrappers
  import opened Protocol

  // ----------------------------------------------------------------------
  // Squares and their names
  // ----------------------------------------------------------------------

  /** A row or column index as `renderBoard`'s `forEach` produces it. */
  type Index = i: int | 0 <= i < 8

  /** The `{row, column}` object of a drag source or drop target; row 0 is
      rank 8, column 0 is file a. */
  datatype Coord = Coord(row: Index, column: Index)

  /** `handleMove`'s square name: the letter with code 97 + column, then the
      decimal digits of 8 - row. */
  function SquareName(c: Coord): (s: string)
    ensures |s| == 2 && 'a' <= s[0] <= 'h' && '1' <= s[1] <= '8'
  {
    [(97 + c.column) as char, ('0' as int + (8 - c.row)) as char]
  }

  /** Reading a square name back: column = code(file) - 97, row = 8 - rank. */
  function ParseSquare(s: string): (r: Option<Coord>)
    ensures r.Some? <==> |s| == 2 && 'a' <= s[0] <= 'h' && '1' <= s[1] <= '8'
  {
    if |s| == 2 && 'a' <= s[0] <= 'h' && '1' <= s[1] <= '8' then
      Some(Coord(8 - (s[1] as int - '0' as int), s[0] as int - 97))
    else None
  }

  lemma ParseSquareName(c: Coord)
    ensures ParseSquare(SquareName(c)) == Some(c)
  {
  }

  lemma SquareNameOfParse(s: string)
    requires ParseSquare(s).Some?
    ensures SquareName(ParseSquare(s).value) == s
  {
    var n := SquareName(ParseSquare(s).value);
    assert n[0] == s[0] && n[1] == s[1];
  }

  /** Distinct coordinates get distinct names. */
  lemma SquareNameInjective(a: Coord, b: Coord)
    ensures SquareName(a) == SquareName(b) <==> a == b
  {
    if SquareName(a) == SquareName(b) {
      ParseSquareName(a);
      ParseSquareName(b);
    }
  }

  /** `handleMove`: the descriptor sent for a drag from `source` to `target`,
      always promoting to a queen. */
  function HandleMove(source: Coord, target: Coord): (m: MoveMsg)
    ensures m.promotion == "q"
    ensures ParseSquare(m.from) == Some(source) && ParseSquare(m.to) == Some(target)
    ensures m.from == m.to <==> source == target
  {
    ParseSquareName(source);
    ParseSquareName(target);
    MoveMsg(SquareName(source), SquareName(target), "q")
  }

  // ----------------------------------------------------------------------
  // What renderBoard decides for each square
  // ----------------------------------------------------------------------

  datatype Shade = Light | Dark

  /** The class "light" or "dark" of the square at (row, column). */
  function SquareShade(row: int, column: int): (sh: Shade)
    ensures sh == Light <==> (row % 2 == 0 <==> column % 2 == 0)
  {
    if (row + column) % 2 == 0 then Light else Dark
  }

  lemma {:induction false} AdjacentSquaresDiffer(row: int, column: int)
    ensures SquareShade(row, column) != SquareShade(row, column + 1)
    ensures SquareShade(row, column) != SquareShade(row + 1, column)
  {
  }

  /** With row 0 as rank 8: a1 is dark and h1 light, as on a real board. */
  lemma CornerShades()
    ensures SquareShade(7, 0) == Dark && SquareShade(7, 7) == Light
  {
  }

  /** A piece may be dragged iff it has the player's own colour. */
  function Draggable(role: Option<Colour>, piece: Colour): (d: bool)
    ensures d ==> role.Some?
    ensures role.Some? ==> (d <==> role.value == piece)
  {
    role == Some(piece)
  }

  lemma SpectatorDragsNothing(c: Colour)
    ensures !Draggable(None, c)
  {
  }

  lemma OneColourDraggable(role: Option<Colour>)
    ensures !(Draggable(role, White) && Draggable(role, Black))
  {
  }

  /** The board gets the class "flipped" for the black player only: the
      board is turned exactly for the role that drags the black pieces. */
  function Flipped(role: Option<Colour>): (f: bool)
    ensures f <==> Draggable(role, Black)
    ensures f ==> !Draggable(role, White)
  {
    role == Some(Black)
  }

  datatype PieceKind = Pawn | Knight | Bishop | Rook | Queen | King

  /** A chess.js square: `{type, color}`. */
  datatype Piece = Piece(kind: PieceKind, colour: Colour)

  /** chess.js's `type` of a piece: always a lower-case letter. */
  function TypeLetter(k: PieceKind): char
  {
    match k
    case Pawn => 'p'
    case Knight => 'n'
    case Bishop => 'b'
    case Rook => 'r'
    case Queen => 'q'
    case King => 'k'
  }

  /** The chess figure a glyph string of `getPieceUnicode`'s table stands
      for: filled figures under the lower-case keys, outlined ones under the
      upper-case keys. */
  datatype Glyph = Filled(kind: PieceKind) | Outlined(kind: PieceKind)

  /** `getPieceUnicode`'s table lookup; `None` is its "" default. */
  function PieceUnicode(key: char): (g: Option<Glyph>)
    ensures g.Some? <==> key in "prnbqkPRNBQK"
    ensures g.Some? && g.value.Filled? ==> key == TypeLetter(g.value.kind)
    ensures g.Some? && g.value.Outlined? ==> key as int == TypeLetter(g.value.kind) as int - 32
  {
    match key
    case 'p' => Some(Filled(Pawn))
    case 'r' => Some(Filled(Rook))
    case 'n' => Some(Filled(Knight))
    case 'b' => Some(Filled(Bishop))
    case 'q' => Some(Filled(Queen))
    case 'k' => Some(Filled(King))
    case 'P' => Some(Outlined(Pawn))
    case 'R' => Some(Outlined(Rook))
    case 'N' => Some(Outlined(Knight))
    case 'B' => Some(Outlined(Bishop))
    case 'Q' => Some(Outlined(Queen))
    case 'K' => Some(Outlined(King))
    case _ => None
  }

  /** Since the lookup is keyed by chess.js's lower-case `type`, every piece,
      white or black, shows the filled figure of its kind; the upper-case keys
      are never used. */
  lemma GlyphIgnoresColour(p: Piece)
    ensures PieceUnicode(TypeLetter(p.kind)) == Some(Filled(p.kind))
  {
  }

  /** The piece element `renderBoard` puts on a square. */
  datatype PieceView = PieceView(colour: Colour, glyph: Option<Glyph>, draggable: bool)

  /** The square element: its data-row/data-column, its shade, its piece. */
  datatype SquareView = SquareView(at: Coord, shade: Shade, piece: Option<PieceView>)

  function SquareViewOf(square: Option<Piece>, at: Coord, role: Option<Colour>): (v: SquareView)
    ensures v.at == at && v.shade == SquareShade(at.row, at.column)
    ensures v.piece.Some? <==> square.Some?
    ensures square.Some? ==>
      && v.piece.value.colour == square.value.colour
      && v.piece.value.glyph == Some(Filled(square.value.kind))
      && (v.piece.value.draggable <==> role == Some(square.value.colour))
  {
    match square
    case None => SquareView(at, SquareShade(at.row, at.column), None)
    case Some(p) =>
      GlyphIgnoresColour(p);
      SquareView(at, SquareShade(at.row, at.column),
                 Some(PieceView(p.colour, PieceUnicode(TypeLetter(p.kind)), Draggable(role, p.colour))))
  }

  /** The shape of chess.js's `board()`: eight ranks of eight squares. */
  predicate IsBoard(board: seq<seq<Option<Piece>>>)
  {
    |board| == 8 && forall r :: 0 <= r < 8 ==> |board[r]| == 8
  }

  /** `renderBoard`: one square element per square, appended in row-major
      order, then the flip decision. */
  method RenderBoard(board: seq<seq<Option<Piece>>>, role: Option<Colour>) returns (squares: seq<SquareView>, flipped: bool)
    requires IsBoard(board)
    ensures |squares| == 64
    ensures forall k :: 0 <= k < 64 ==> squares[k] == SquareViewOf(board[k / 8][k % 8], Coord(k / 8, k % 8), role)
    ensures forall k :: 0 <= k < 64 && squares[k].piece.Some? ==>
      (squares[k].piece.value.draggable <==> role == Some(squares[k].piece.value.colour))
    ensures role.None? ==> forall k :: 0 <= k < 64 && squares[k].piece.Some? ==> !squares[k].piece.value.draggable
    ensures flipped <==> role == Some(Black)
  {
    squares := [];
    var row := 0;
    while row < |board|
      invariant 0 <= row <= 8 && |squares| == 8 * row
      invariant forall k :: 0 <= k < |squares| ==>
        squares[k] == SquareViewOf(board[k / 8][k % 8], Coord(k / 8, k % 8), role)
    {
      var column := 0;
      while column < |board[row]|
        invariant 0 <= column <= 8 && |squares| == 8 * row + column
        invariant forall k :: 0 <= k < |squares| ==>
          squares[k] == SquareViewOf(board[k / 8][k % 8], Coord(k / 8, k % 8), role)
      {
        assert (8 * row + column) / 8 == row && (8 * row + column) % 8 == column;
        squares := squares + [SquareViewOf(board[row][column], Coord(row, column), role)];
        column := column + 1;
      }
      row := row + 1;
    }
    flipped := Flipped(role);
  }

  // ----------------------------------------------------------------------
  // The status line and the game-over overlay
  // ----------------------------------------------------------------------

  /** The "boardState" handler's status line: set only while `playerRole`
      is set. */
  function TurnStatus(role: Option<Colour>, turn: Colour, current: string): (st: string)
    ensures role.None? ==> st == current
    ensures role.Some? ==> (st == "Your turn" <==> turn == role.value)
    ensures role.Some? ==> (st == "Opponent's turn" <==> turn != role.value)
  {
    if role.Some? then (if turn == role.value then "Your turn" else "Opponent's turn")
    else current
  }

  /** The overlay's title: "Checkmate!" for the result "checkmate", "Draw!"
      for anything else, stalemate included. */
  function GameOverTitle(result: string): (title: string)
    ensures title == "Checkmate!" <==> result == "checkmate"
    ensures title == "Draw!" <==> result != "checkmate"
  {
    if result == "checkmate" then "Checkmate!" else "Draw!"
  }

  /** The overlay's text: the winner's announcement, or the draw message. */
  datatype Announcement = Wins(winner: Option<string>) | Drawn

  function GameOverText(result: string, winner: Option<string>): (a: Announcement)
    ensures a.Wins? <==> result == "checkmate"
    ensures a.Wins? ==> a.winner == winner
  {
    if result == "checkmate" then Wins(winner) else Drawn
  }

  // ----------------------------------------------------------------------
  // The client's module-level state
  // ----------------------------------------------------------------------

  datatype ClientView = ClientView(
    playerRole: Option<Colour>,
    draggedPiece: Option<Piece>,
    sourceSquare: Option<Coord>,
    status: string,
    overlayShown: bool,
    title: string,
    text: Announcement)

  /** The variables of chessgame.js that its handlers reassign, and the text
      the handlers write into the page. */
  class ClientState {
    var playerRole: Option<Colour>
    var draggedPiece: Option<Piece>
    var sourceSquare: Option<Coord>
    var status: string
    var overlayShown: bool
    var title: string
    var text: Announcement

    /** A drag is under way with both its piece and its source, or not at all. */
    ghost predicate Valid()
      reads this
    {
      draggedPiece.Some? <==> sourceSquare.Some?
    }

    function View(): ClientView
      reads this
    {
      ClientView(playerRole, draggedPiece, sourceSquare, status, overlayShown, title, text)
    }

    /** The page as loaded; its initial status, title and text come from the
        page template. */
    constructor(initialStatus: string, initialTitle: string)
      ensures Valid()
      ensures View() == ClientView(None, None, None, initialStatus, false, initialTitle, Drawn)
    {
      playerRole, draggedPiece, sourceSquare := None, None, None;
      status, overlayShown, title, text := initialStatus, false, initialTitle, Drawn;
    }

    /** "playerRole": remember the colour and render the board. */
    method OnPlayerRole(role: Colour, board: seq<seq<Option<Piece>>>) returns (squares: seq<SquareView>, flipped: bool)
      requires Valid() && IsBoard(board)
      modifies this
      ensures Valid() && View() == old(View()).(playerRole := Some(role))
      ensures |squares| == 64
      ensures forall k :: 0 <= k < 64 ==>
        squares[k] == SquareViewOf(board[k / 8][k % 8], Coord(k / 8, k % 8), playerRole)
      ensures forall k :: 0 <= k < 64 && squares[k].piece.Some? ==>
        (squares[k].piece.value.draggable <==> squares[k].piece.value.colour == role)
      ensures flipped <==> role == Black
    {
      playerRole := Some(role);
      squares, flipped := RenderBoard(board, playerRole);
    }

    /** "spectatorRole": forget any role; no piece can be dragged afterwards. */
    method OnSpectatorRole(board: seq<seq<Option<Piece>>>) returns (squares: seq<SquareView>, flipped: bool)
      requires Valid() && IsBoard(board)
      modifies this
      ensures Valid() && View() == old(View()).(playerRole := None, status := "Spectating")
      ensures |squares| == 64
      ensures forall k :: 0 <= k < 64 ==>
        squares[k] == SquareViewOf(board[k / 8][k % 8], Coord(k / 8, k % 8), playerRole)
      ensures forall k :: 0 <= k < 64 && squares[k].piece.Some? ==> !squares[k].piece.value.draggable
      ensures !flipped
    {
      playerRole := None;
      status := "Spectating";
      squares, flipped := RenderBoard(board, playerRole);
    }

    method OnWaiting()
      requires Valid()
      modifies this
      ensures Valid() && View() == old(View()).(status := "Waiting for opponent...")
    {
      status := "Waiting for opponent...";
    }

    method OnConnected()
      requires Valid()
      modifies this
      ensures Valid() && View() == old(View()).(status := "Opponent connected")
    {
      status := "Opponent connected";
    }

    /** "boardState": the position is loaded into the client's engine, whose
        side to move is `turn` and whose board is `board` afterwards. */
    method OnBoardState(turn: Colour, board: seq<seq<Option<Piece>>>) returns (squares: seq<SquareView>, flipped: bool)
      requires Valid() && IsBoard(board)
      modifies this
      ensures Valid() && View() == old(View()).(status := TurnStatus(old(playerRole), turn, old(status)))
      ensures |squares| == 64
      ensures forall k :: 0 <= k < 64 ==>
        squares[k] == SquareViewOf(board[k / 8][k % 8], Coord(k / 8, k % 8), playerRole)
      ensures flipped <==> playerRole == Some(Black)
    {
      if playerRole.Some? {
        status := if turn == playerRole.value then "Your turn" else "Opponent's turn";
      }
      squares, flipped := RenderBoard(board, playerRole);
    }

    /** "gameOver": fill in and show the overlay. */
    method OnGameOver(result: string, winner: Option<string>)
      requires Valid()
      modifies this
      ensures Valid() && View() == old(View()).(overlayShown := true, title := GameOverTitle(result), text := GameOverText(result, winner))
    {
      if result == "checkmate" {
        title := "Checkmate!";
        text := Wins(winner);
      } else {
        title := "Draw!";
        text := Drawn;
      }
      overlayShown := true;
    }

    /** "gameRestarted": the overlay is left as it is. */
    method OnGameRestarted(board: seq<seq<Option<Piece>>>) returns (squares: seq<SquareView>, flipped: bool)
      requires Valid() && IsBoard(board)
      modifies this
      ensures Valid() && View() == old(View()).(status := "Game restarted")
      ensures |squares| == 64
      ensures forall k :: 0 <= k < 64 ==>
        squares[k] == SquareViewOf(board[k / 8][k % 8], Coord(k / 8, k % 8), playerRole)
      ensures flipped <==> playerRole == Some(Black)
    {
      status := "Game restarted";
      squares, flipped := RenderBoard(board, playerRole);
    }

    /** "dragstart" on the piece `piece` standing at `at`. The element's
        `draggable` flag is the one the latest render gave it; every handler
        that changes `playerRole` renders again, so it equals
        `Draggable(playerRole, piece.colour)`. */
    method OnDragStart(piece: Piece, at: Coord)
      requires Valid()
      modifies this
      ensures Valid()
      ensures View() == if Draggable(old(playerRole), piece.colour)
                        then old(View()).(draggedPiece := Some(piece), sourceSquare := Some(at))
                        else old(View())
    {
      if !Draggable(playerRole, piece.colour) {
        return;
      }
      draggedPiece := Some(piece);
      sourceSquare := Some(at);
    }

    /** "dragend": the drag is over, whether or not it was dropped. */
    method OnDragEnd()
      requires Valid()
      modifies this
      ensures Valid() && View() == old(View()).(draggedPiece := None, sourceSquare := None)
    {
      draggedPiece := None;
      sourceSquare := None;
    }

    /** "drop" on the square `target`: the move sent to the server, if any.
        Nothing happens unless a drag is under way. */
    method OnDrop(target: Coord) returns (sent: Option<MoveMsg>)
      requires Valid()
      ensures sent.Some? <==> draggedPiece.Some? && sourceSquare.Some?
      ensures sent.Some? <==> draggedPiece.Some?
      ensures sent.Some? ==> sent.value == HandleMove(sourceSquare.value, target)
      ensures sent.Some? ==> sent.value.promotion == "q" && ParseSquare(sent.value.to) == Some(target)
    {
      if draggedPiece.None? || sourceSquare.None? {
        return None;
      }
      sent := Some(HandleMove(sourceSquare.value, target));
    }
  }
}
