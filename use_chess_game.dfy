/**
 * The board-click state machine of the game hook: it owns one game object of the rules
 * library plus the state the board is drawn from (board copy, move history, selected square,
 * highlighted destinations, orientation and the open promotion dialog).
 */
module UseChessGame {
  import opened ChessTypes
  import opened ChessUtils
  import opened Constants
  import opened Rules

  /** squareName: the file letter followed by the rank number 8 - rankIdx, as a template string builds it. */
  function SquareName(rankIdx: int, fileIdx: int): (sq: string)
    requires 0 <= rankIdx < 8 && 0 <= fileIdx < 8
  {
    [FILES[fileIdx]] + NatToString(8 - rankIdx)
  }

  /** squareName names the same square as indicesToSquare. */
  lemma SquareNameIsIndicesToSquare(rankIdx: int, fileIdx: int)
    requires 0 <= rankIdx < 8 && 0 <= fileIdx < 8
    ensures SquareName(rankIdx, fileIdx) == IndicesToSquare(rankIdx, fileIdx)
    ensures IsValidSquare(SquareName(rankIdx, fileIdx))
    ensures SquareToIndices(SquareName(rankIdx, fileIdx)) == (rankIdx, fileIdx)
  {
    IndicesRoundTrip(rankIdx, fileIdx);
  }

  /** moves.some(m => m.to === sq) over the moves from the selected square. */
  predicate IsLegalTarget(t: GameTree, from: Square, sq: Square) {
    exists m :: m in MovesFrom(t, from) && m.to == sq
  }

  /** The hook's promotion test: a pawn of White reaching rank 8 or of Black reaching rank 1. */
  predicate IsPromotionClick(t: GameTree, from: Square, sq: Square) {
    var movingPiece := PieceAt(t, from);
    && movingPiece.Some?
    && movingPiece.value.kind == Pawn
    && ((movingPiece.value.color == White && sq[1] == '8') || (movingPiece.value.color == Black && sq[1] == '1'))
  }

  /** The hook's test agrees with isPromotionRank for the moving pawn's colour. */
  lemma PromotionClickIsPromotionRank(t: GameTree, from: Square, sq: Square)
    ensures IsPromotionClick(t, from, sq) <==>
      PieceAt(t, from).Some? && PieceAt(t, from).value.kind == Pawn && IsPromotionRank(sq, PieceAt(t, from).value.color)
  {
  }

  /** A click on a piece of the side to move selects it. */
  predicate CanSelect(t: GameTree, sq: Square) {
    PieceAt(t, sq).Some? && PieceAt(t, sq).value.color == t.turn
  }

  /** The highlights for a selection: the destinations of the moves from the selected square. */
  function LegalTargets(t: GameTree, selected: Option<Square>): (ds: seq<string>)
    ensures selected.None? ==> ds == []
    ensures selected.Some? ==> forall d :: d in ds <==> exists m :: m in MovesFrom(t, selected.value) && m.to == d
  {
    if selected.None? then []
    else
      var ms := MovesFrom(t, selected.value);
      var ds := Destinations(ms);
      assert forall d :: d in ds <==> exists i :: 0 <= i < |ms| && ms[i].to == d;
      ds
  }

  /** The position status, in the order the hook checks it. */
  datatype Status =
    | Checkmate(winner: Color)
    | Draw
    | Stalemate
    | ThreefoldRepetition
    | InsufficientMaterial
    | InCheck(side: Color)
    | ToMove(side: Color)

  /** The status derivation: the first flag that holds decides; a checkmate is won by the side not to move. */
  function StatusOf(t: GameTree): (s: Status)
    ensures s.Checkmate? <==> t.flags.checkmate
    ensures s.Checkmate? ==> s.winner == GetOppositeColor(t.turn) && s.winner != t.turn
    ensures s.Draw? <==> !t.flags.checkmate && t.flags.draw
    ensures s.Stalemate? <==> !t.flags.checkmate && !t.flags.draw && t.flags.stalemate
    ensures s.ThreefoldRepetition? <==> !t.flags.checkmate && !t.flags.draw && !t.flags.stalemate && t.flags.threefold
    ensures s.InsufficientMaterial? <==>
      !t.flags.checkmate && !t.flags.draw && !t.flags.stalemate && !t.flags.threefold && t.flags.insufficient
    ensures s.InCheck? <==>
      !t.flags.checkmate && !t.flags.draw && !t.flags.stalemate && !t.flags.threefold && !t.flags.insufficient
      && t.flags.inCheck
    ensures s.InCheck? || s.ToMove? ==> s.side == t.turn
    ensures s.ToMove? ==> !t.flags.checkmate && !t.flags.draw && !t.flags.stalemate && !t.flags.threefold
                          && !t.flags.insufficient && !t.flags.inCheck
  {
    OppositeIsInvolution(t.turn);
    if t.flags.checkmate then Checkmate(if t.turn == White then Black else White)
    else if t.flags.draw then Draw
    else if t.flags.stalemate then Stalemate
    else if t.flags.threefold then ThreefoldRepetition
    else if t.flags.insufficient then InsufficientMaterial
    else if t.flags.inCheck then InCheck(t.turn)
    else ToMove(t.turn)
  }

  class ChessGameState {
    const game: Game
    var board: Board
    var selectedSquare: Option<Square>
    var legalMoves: seq<string>
    var history: seq<Move>
    var flip: bool
    var promotionDialog: Option<PromotionDialogState>

    /** The drawn state agrees with the game object: its board and history, and the highlights of the selection. */
    predicate Valid()
      reads this, game
    {
      && board == game.current.board
      && history == game.History()
      && legalMoves == LegalTargets(game.current, selectedSquare)
    }

    /** A fresh game at the starting position, nothing selected. */
    constructor (start: GameTree)
      ensures Valid() && fresh(game)
      ensures game.current == start && game.past == []
      ensures selectedSquare.None? && !flip && promotionDialog.None?
    {
      game := new Game(start);
      board := start.board;
      selectedSquare := None;
      legalMoves := [];
      history := [];
      flip := false;
      promotionDialog := None;
    }

    function Status(): Status
      reads this, game
    {
      StatusOf(game.current)
    }

    /** The try block around game.move: on success the board and history are refreshed and the
        selection cleared; when the library refuses the move nothing changes. */
    method TryMove(from: string, to: string, promotion: Option<PromotionPiece>) returns (ok: bool)
      requires Valid()
      modifies this, game
      ensures Valid() && flip == old(flip) && promotionDialog == old(promotionDialog)
      ensures var k := FindMove(old(game.current).children, from, to, promotion);
        && ok == k.Some?
        && (ok ==>
              && game.current == old(game.current).children[k.value].node
              && game.past == old(game.past) + [Step(old(game.current), old(game.current).children[k.value].move)]
              && selectedSquare.None?)
        && (!ok ==>
              game.current == old(game.current) && game.past == old(game.past) && selectedSquare == old(selectedSquare))
    {
      ok := game.MoveFromTo(from, to, promotion);
      if ok {
        board := game.Board();
        history := game.History();
        selectedSquare := None;
        legalMoves := [];
      }
    }

    /** onSquareClick: deselect, move, open the promotion dialog, or (re)select. */
    method OnSquareClick(rankIdx: int, fileIdx: int)
      requires 0 <= rankIdx < 8 && 0 <= fileIdx < 8
      requires Valid()
      modifies this, game
      ensures Valid() && flip == old(flip)
      // clicking the selected square clears the selection
      ensures old(selectedSquare) == Some(IndicesToSquare(rankIdx, fileIdx)) ==>
        && selectedSquare.None?
        && game.current == old(game.current) && game.past == old(game.past)
        && promotionDialog == old(promotionDialog)
      // a legal destination for a promoting pawn opens the dialog and changes nothing else
      ensures var sq := IndicesToSquare(rankIdx, fileIdx);
        old(selectedSquare).Some? && old(selectedSquare) != Some(sq)
        && IsLegalTarget(old(game.current), old(selectedSquare).value, sq)
        && IsPromotionClick(old(game.current), old(selectedSquare).value, sq) ==>
        && promotionDialog == Some(PromotionDialogState(old(selectedSquare).value, sq))
        && selectedSquare == old(selectedSquare)
        && game.current == old(game.current) && game.past == old(game.past)
      // any other legal destination plays the move and clears the selection; a refused move changes nothing
      ensures var sq := IndicesToSquare(rankIdx, fileIdx);
        old(selectedSquare).Some? && old(selectedSquare) != Some(sq)
        && IsLegalTarget(old(game.current), old(selectedSquare).value, sq)
        && !IsPromotionClick(old(game.current), old(selectedSquare).value, sq) ==>
        var k := FindMove(old(game.current).children, old(selectedSquare).value, sq, None);
        && promotionDialog == old(promotionDialog)
        && (k.Some? ==>
              && game.current == old(game.current).children[k.value].node
              && game.past == old(game.past) + [Step(old(game.current), old(game.current).children[k.value].move)]
              && selectedSquare.None?)
        && (k.None? ==>
              game.current == old(game.current) && game.past == old(game.past) && selectedSquare == old(selectedSquare))
      // otherwise a piece of the side to move is selected and anything else clears the selection
      ensures var sq := IndicesToSquare(rankIdx, fileIdx);
        (old(selectedSquare).None? ||
         (old(selectedSquare) != Some(sq) && !IsLegalTarget(old(game.current), old(selectedSquare).value, sq))) ==>
        && selectedSquare == (if CanSelect(old(game.current), sq) then Some(sq) else None)
        && game.current == old(game.current) && game.past == old(game.past)
        && promotionDialog == old(promotionDialog)
    {
      SquareNameIsIndicesToSquare(rankIdx, fileIdx);
      var sq: Square := SquareName(rankIdx, fileIdx);

      if selectedSquare == Some(sq) {
        selectedSquare := None;
        legalMoves := [];
        return;
      }

      var piece := PieceAt(game.current, sq);

      if selectedSquare.Some? {
        var from := selectedSquare.value;
        var moves := MovesFrom(game.current, from);
        var isLegal := exists m :: m in moves && m.to == sq;

        if isLegal {
          var movingPiece := PieceAt(game.current, from);
          var isPromotion :=
            && movingPiece.Some?
            && movingPiece.value.kind == Pawn
            && ((movingPiece.value.color == White && sq[1] == '8') || (movingPiece.value.color == Black && sq[1] == '1'));

          if isPromotion {
            promotionDialog := Some(PromotionDialogState(from, sq));
            return;
          }

          var _ := TryMove(from, sq, None);
          return;
        }
      }

      if piece.Some? && piece.value.color == game.Turn() {
        selectedSquare := Some(sq);
        legalMoves := Destinations(MovesFrom(game.current, sq));
      } else {
        selectedSquare := None;
        legalMoves := [];
      }
    }

    /** handlePromotion: without a dialog nothing happens; otherwise the promoting move is tried
        and the dialog closes whether or not it was accepted. */
    method HandlePromotion(piece: PromotionPiece)
      requires Valid()
      modifies this, game
      ensures Valid() && flip == old(flip)
      ensures old(promotionDialog).None? ==>
        && promotionDialog.None? && selectedSquare == old(selectedSquare)
        && game.current == old(game.current) && game.past == old(game.past)
      ensures old(promotionDialog).Some? ==>
        var d := old(promotionDialog).value;
        var k := FindMove(old(game.current).children, d.from, d.to, Some(piece));
        && promotionDialog.None?
        && (k.Some? ==>
              && game.current == old(game.current).children[k.value].node
              && game.past == old(game.past) + [Step(old(game.current), old(game.current).children[k.value].move)]
              && selectedSquare.None?)
        && (k.None? ==>
              game.current == old(game.current) && game.past == old(game.past) && selectedSquare == old(selectedSquare))
    {
      if promotionDialog.None? {
        return;
      }
      var d := promotionDialog.value;
      var _ := TryMove(d.from, d.to, Some(piece));
      promotionDialog := None;
    }

    /** reset: the starting position, an empty history and no selection. */
    method Reset()
      requires Valid()
      modifies this, game
      ensures Valid()
      ensures game.current == game.start && game.past == [] && history == []
      ensures selectedSquare.None? && legalMoves == []
      ensures flip == old(flip) && promotionDialog == old(promotionDialog)
    {
      game.Reset();
      board := game.Board();
      history := [];
      selectedSquare := None;
      legalMoves := [];
    }

    /** undo: the last move taken back (if any) and no selection. */
    method Undo()
      requires Valid()
      modifies this, game
      ensures Valid()
      ensures old(game.past) == [] ==> game.current == old(game.current) && history == old(history)
      ensures old(game.past) != [] ==>
        game.current == old(game.past)[|old(game.past)| - 1].before && history == old(history)[..|old(history)| - 1]
      ensures old(game.past) == [] ==> game.past == []
      ensures old(game.past) != [] ==> game.past == old(game.past)[..|old(game.past)| - 1]
      ensures selectedSquare.None? && legalMoves == []
      ensures flip == old(flip) && promotionDialog == old(promotionDialog)
    {
      game.Undo();
      board := game.Board();
      history := game.History();
      selectedSquare := None;
      legalMoves := [];
    }

    /** setFlip: the board orientation, and nothing else. */
    method SetFlip(value: bool)
      modifies this
      ensures flip == value
      ensures board == old(board) && selectedSquare == old(selectedSquare) && legalMoves == old(legalMoves)
      ensures history == old(history) && promotionDialog == old(promotionDialog)
    {
      flip := value;
    }
  }
}
