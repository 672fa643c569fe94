/**
  Properties that connect the server (app.js) and the browser client
  (public/javascripts/chessgame.js) across the socket events between them.
 */
module Relay {
  import opened Wrappers
  import opened Protocol
  import Server
  import Client

  /** A seated player whose client has loaded the server's position sees
      "Your turn" exactly when the server would take a move from it. */
  lemma YourTurnIffServerAcceptsSender<P>(e: Server.Engine<P>, s: Server.ServerState<P>, id: ConnId, c: Colour, current: string)
    requires Server.Distinct(s.table)
    requires Server.Holder(s.table, c) == Some(id)
    ensures Client.TurnStatus(Some(c), e.turn(s.position), current) == "Your turn" <==> Server.MayMove(e, s, id)
  {
    if e.turn(s.position) != c {
      assert Opponent(c) == e.turn(s.position);
      assert Server.Holder(s.table, Opponent(c)) != Some(id);
    }
  }

  /** The overlay a client shows for the server's game-over notice: the
      checkmate title and the winner for a mate, the draw title otherwise. */
  lemma OverlayForServerNotice<P>(e: Server.Engine<P>, p: P)
    requires Server.GameOverNotice(e, p).Some?
    ensures var n := Server.GameOverNotice(e, p).value;
      && (Client.GameOverTitle(ResultName(n.result)) == "Checkmate!" <==> e.isCheckmate(p))
      && (e.isCheckmate(p) ==> Client.GameOverText(ResultName(n.result), n.winner) == Client.Wins(Some(Name(Opponent(e.turn(p))))))
      && (!e.isCheckmate(p) ==> Client.GameOverText(ResultName(n.result), n.winner) == Client.Drawn)
  {
  }
}
