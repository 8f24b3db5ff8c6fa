/** Shared value types of the chess UI: colours, pieces, moves, difficulty levels. */
module ChessTypes {

  datatype Option<+T> = None | Some(value: T)

  /** The side of a piece or the side to move ('w' or 'b'). */
  datatype Color = White | Black

  /** chess.js piece symbols p, n, b, r, q, k. */
  datatype PieceSymbol = Pawn | Knight | Bishop | Rook | Queen | King

  datatype Piece = Piece(kind: PieceSymbol, color: Color)

  /** The four pieces the promotion dialog offers. */
  datatype PromotionPiece = PromoteQueen | PromoteRook | PromoteBishop | PromoteKnight

  /** The verbose move record of the rules library, reduced to what the core reads. */
  datatype Move = Move(from: string, to: string, piece: PieceSymbol, color: Color,
                       promotion: Option<PromotionPiece>, san: string)

  datatype Difficulty = Easy | Medium | Hard

  datatype PromotionDialogState = PromotionDialogState(from: string, to: string)
}
