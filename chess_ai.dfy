/**
 * The computer opponent: static evaluation of a board, depth-bounded minimax with fail-soft
 * alpha-beta pruning over the rules library's game tree, root move selection and the
 * difficulty dispatch.
 */
module ChessAI {
  import opened ChessTypes
  import opened ChessUtils
  import opened Rules
  import opened RandomDraw
  import Constants

  // ---------------------------------------------------------------------------
  // Material and positional tables

  /** PIECE_VALUES of the search. */
  function PieceValue(kind: PieceSymbol): int {
    match kind
    case Pawn => 100
    case Knight => 320
    case Bishop => 330
    case Rook => 500
    case Queen => 900
    case King => 20000
  }

  /** The search and the constants file use the same material table. */
  lemma PieceValuesAgree(kind: PieceSymbol)
    ensures PieceValue(kind) == Constants.PieceValue(kind)
  {
  }

  // POSITION_BONUS, one table per piece kind; row 0 is the eighth rank seen from White.
  const PAWN_TABLE: seq<seq<int>> := [
    [0, 0, 0, 0, 0, 0, 0, 0],
    [50, 50, 50, 50, 50, 50, 50, 50],
    [10, 10, 20, 30, 30, 20, 10, 10],
    [5, 5, 10, 25, 25, 10, 5, 5],
    [0, 0, 0, 20, 20, 0, 0, 0],
    [5, -5, -10, 0, 0, -10, -5, 5],
    [5, 10, 10, -20, -20, 10, 10, 5],
    [0, 0, 0, 0, 0, 0, 0, 0]
  ]

  const KNIGHT_TABLE: seq<seq<int>> := [
    [-50, -40, -30, -30, -30, -30, -40, -50],
    [-40, -20, 0, 0, 0, 0, -20, -40],
    [-30, 0, 10, 15, 15, 10, 0, -30],
    [-30, 5, 15, 20, 20, 15, 5, -30],
    [-30, 0, 15, 20, 20, 15, 0, -30],
    [-30, 5, 10, 15, 15, 10, 5, -30],
    [-40, -20, 0, 5, 5, 0, -20, -40],
    [-50, -40, -30, -30, -30, -30, -40, -50]
  ]

  const BISHOP_TABLE: seq<seq<int>> := [
    [-20, -10, -10, -10, -10, -10, -10, -20],
    [-10, 0, 0, 0, 0, 0, 0, -10],
    [-10, 0, 5, 10, 10, 5, 0, -10],
    [-10, 5, 5, 10, 10, 5, 5, -10],
    [-10, 0, 10, 10, 10, 10, 0, -10],
    [-10, 10, 10, 10, 10, 10, 10, -10],
    [-10, 5, 0, 0, 0, 0, 5, -10],
    [-20, -10, -10, -10, -10, -10, -10, -20]
  ]

  const ROOK_TABLE: seq<seq<int>> := [
    [0, 0, 0, 0, 0, 0, 0, 0],
    [5, 10, 10, 10, 10, 10, 10, 5],
    [-5, 0, 0, 0, 0, 0, 0, -5],
    [-5, 0, 0, 0, 0, 0, 0, -5],
    [-5, 0, 0, 0, 0, 0, 0, -5],
    [-5, 0, 0, 0, 0, 0, 0, -5],
    [-5, 0, 0, 0, 0, 0, 0, -5],
    [0, 0, 0, 5, 5, 0, 0, 0]
  ]

  const QUEEN_TABLE: seq<seq<int>> := [
    [-20, -10, -10, -5, -5, -10, -10, -20],
    [-10, 0, 0, 0, 0, 0, 0, -10],
    [-10, 0, 5, 5, 5, 5, 0, -10],
    [-5, 0, 5, 5, 5, 5, 0, -5],
    [0, 0, 5, 5, 5, 5, 0, -5],
    [-10, 5, 5, 5, 5, 5, 0, -10],
    [-10, 0, 5, 0, 0, 0, 0, -10],
    [-20, -10, -10, -5, -5, -10, -10, -20]
  ]

  const KING_TABLE: seq<seq<int>> := [
    [-30, -40, -40, -50, -50, -40, -40, -30],
    [-30, -40, -40, -50, -50, -40, -40, -30],
    [-30, -40, -40, -50, -50, -40, -40, -30],
    [-30, -40, -40, -50, -50, -40, -40, -30],
    [-20, -30, -30, -40, -40, -30, -30, -20],
    [-10, -20, -20, -20, -20, -20, -20, -10],
    [20, 20, 0, 0, 0, 0, 20, 20],
    [20, 30, 10, 0, 0, 10, 30, 20]
  ]

  function PositionTable(kind: PieceSymbol): seq<seq<int>> {
    match kind
    case Pawn => PAWN_TABLE
    case Knight => KNIGHT_TABLE
    case Bishop => BISHOP_TABLE
    case Rook => ROOK_TABLE
    case Queen => QUEEN_TABLE
    case King => KING_TABLE
  }

  lemma PositionTablesAre8x8(kind: PieceSymbol)
    ensures |PositionTable(kind)| == 8
    ensures forall r :: 0 <= r < 8 ==> |PositionTable(kind)[r]| == 8
  {
  }

  function PositionBonus(kind: PieceSymbol, posRank: int, file: int): int
    requires 0 <= posRank < 8 && 0 <= file < 8
  {
    PositionTablesAre8x8(kind);
    PositionTable(kind)[posRank][file]
  }

  // ---------------------------------------------------------------------------
  // Static evaluation

  /** The signed contribution of one square: material plus the positional bonus, the table read
      upside down for Black, added for the perspective side and subtracted for the other. */
  function SquareScore(p: Option<Piece>, rank: int, file: int, forColor: Color): int
    requires 0 <= rank < 8 && 0 <= file < 8
  {
    match p
    case None => 0
    case Some(piece) =>
      var posRank := if piece.color == White then rank else 7 - rank;
      var pieceScore := PieceValue(piece.kind) + PositionBonus(piece.kind, posRank, file);
      if piece.color == forColor then pieceScore else -pieceScore
  }

  /** The sum of SquareScore over the first n files of one rank. */
  function RowScore(b: Board, rank: int, n: int, forColor: Color): int
    requires 0 <= rank < 8 && 0 <= n <= 8
  {
    if n == 0 then 0 else RowScore(b, rank, n - 1, forColor) + SquareScore(b[rank][n - 1], rank, n - 1, forColor)
  }

  /** The sum of RowScore over the first n ranks. */
  function RanksScore(b: Board, n: int, forColor: Color): int
    requires 0 <= n <= 8
  {
    if n == 0 then 0 else RanksScore(b, n - 1, forColor) + RowScore(b, n - 1, 8, forColor)
  }

  /** The score of a board from one side's perspective: the sum over all 64 squares. */
  function Evaluate(b: Board, forColor: Color): int {
    RanksScore(b, 8, forColor)
  }

  /** evaluateBoard: the nested scan of the board accumulating the score. */
  method EvaluateBoard(game: Game, forColor: Color) returns (score: int)
    ensures score == Evaluate(game.current.board, forColor)
  {
    score := 0;
    var board := game.Board();
    for rank := 0 to 8
      invariant score == RanksScore(board, rank, forColor)
    {
      for file := 0 to 8
        invariant score == RanksScore(board, rank, forColor) + RowScore(board, rank, file, forColor)
      {
        var piece := board[rank][file];
        if piece.None? {
          continue;
        }
        var pieceScore := PieceValue(piece.value.kind);
        var posRank := if piece.value.color == White then rank else 7 - rank;
        pieceScore := pieceScore + PositionBonus(piece.value.kind, posRank, file);
        if piece.value.color == forColor {
          score := score + pieceScore;
        } else {
          score := score - pieceScore;
        }
      }
    }
  }

  // Antisymmetry in the perspective colour

  lemma {:induction false} RowScoreAntisymmetric(b: Board, rank: int, n: int, c: Color)
    requires 0 <= rank < 8 && 0 <= n <= 8
    ensures RowScore(b, rank, n, c) == -RowScore(b, rank, n, GetOppositeColor(c))
  {
    if n > 0 {
      RowScoreAntisymmetric(b, rank, n - 1, c);
    }
  }

  lemma {:induction false} RanksScoreAntisymmetric(b: Board, n: int, c: Color)
    requires 0 <= n <= 8
    ensures RanksScore(b, n, c) == -RanksScore(b, n, GetOppositeColor(c))
  {
    if n > 0 {
      RanksScoreAntisymmetric(b, n - 1, c);
      RowScoreAntisymmetric(b, n - 1, 8, c);
    }
  }

  /** Only the sign depends on the perspective: White's score is minus Black's. */
  lemma EvaluateAntisymmetric(b: Board)
    ensures Evaluate(b, White) == -Evaluate(b, Black)
  {
    RanksScoreAntisymmetric(b, 8, White);
  }

  // An empty board

  const EMPTY_BOARD: Board := [EMPTY_ROW, EMPTY_ROW, EMPTY_ROW, EMPTY_ROW, EMPTY_ROW, EMPTY_ROW, EMPTY_ROW, EMPTY_ROW]

  lemma {:induction false} EmptyRowScoresZero(b: Board, rank: int, n: int, c: Color)
    requires 0 <= rank < 8 && 0 <= n <= 8
    requires forall f :: 0 <= f < 8 ==> b[rank][f].None?
    ensures RowScore(b, rank, n, c) == 0
  {
    if n > 0 {
      EmptyRowScoresZero(b, rank, n - 1, c);
    }
  }

  lemma {:induction false} EmptyRanksScoreZero(b: Board, n: int, c: Color)
    requires 0 <= n <= 8
    requires forall r, f :: 0 <= r < 8 && 0 <= f < 8 ==> b[r][f].None?
    ensures RanksScore(b, n, c) == 0
  {
    if n > 0 {
      EmptyRanksScoreZero(b, n - 1, c);
      EmptyRowScoresZero(b, n - 1, 8, c);
    }
  }

  lemma EmptyBoardScoresZero(c: Color)
    ensures Evaluate(EMPTY_BOARD, c) == 0
  {
    EmptyRanksScoreZero(EMPTY_BOARD, 8, c);
  }

  // Mirror symmetry

  function SwapColor(p: Option<Piece>): Option<Piece> {
    match p
    case None => None
    case Some(piece) => Some(Piece(piece.kind, GetOppositeColor(piece.color)))
  }

  /** The board with every piece's colour swapped and the ranks flipped (row r becomes row 7 - r). */
  function Mirror(b: Board): Board {
    seq(8, r requires 0 <= r < 8 => MirrorRow(b, r))
  }

  /** Row r of the mirrored board: row 7 - r with the colours swapped. */
  function MirrorRow(b: Board, r: int): (row: Row)
    requires 0 <= r < 8
    ensures forall f :: 0 <= f < 8 ==> row[f] == SwapColor(b[7 - r][f])
  {
    seq(8, f requires 0 <= f < 8 => SwapColor(b[7 - r][f]))
  }

  lemma {:induction false} RowScoreMirror(b: Board, rank: int, n: int, c: Color)
    requires 0 <= rank < 8 && 0 <= n <= 8
    ensures RowScore(Mirror(b), rank, n, c) == -RowScore(b, 7 - rank, n, c)
  {
    if n > 0 {
      RowScoreMirror(b, rank, n - 1, c);
      assert Mirror(b)[rank][n - 1] == SwapColor(b[7 - rank][n - 1]);
    }
  }

  /** The sum over the eight ranks, written out. */
  lemma RanksExpanded(b: Board, c: Color)
    ensures Evaluate(b, c) == RowScore(b, 0, 8, c) + RowScore(b, 1, 8, c) + RowScore(b, 2, 8, c) + RowScore(b, 3, 8, c)
                            + RowScore(b, 4, 8, c) + RowScore(b, 5, 8, c) + RowScore(b, 6, 8, c) + RowScore(b, 7, 8, c)
  {
    assert RanksScore(b, 1, c) == RowScore(b, 0, 8, c);
    assert RanksScore(b, 2, c) == RanksScore(b, 1, c) + RowScore(b, 1, 8, c);
    assert RanksScore(b, 3, c) == RanksScore(b, 2, c) + RowScore(b, 2, 8, c);
    assert RanksScore(b, 4, c) == RanksScore(b, 3, c) + RowScore(b, 3, 8, c);
    assert RanksScore(b, 5, c) == RanksScore(b, 4, c) + RowScore(b, 4, 8, c);
    assert RanksScore(b, 6, c) == RanksScore(b, 5, c) + RowScore(b, 5, 8, c);
    assert RanksScore(b, 7, c) == RanksScore(b, 6, c) + RowScore(b, 6, 8, c);
  }

  /** Swapping colours and flipping ranks negates the score. */
  lemma EvaluateMirror(b: Board, c: Color)
    ensures Evaluate(Mirror(b), c) == -Evaluate(b, c)
  {
    RanksExpanded(b, c);
    RanksExpanded(Mirror(b), c);
    RowScoreMirror(b, 0, 8, c);
    RowScoreMirror(b, 1, 8, c);
    RowScoreMirror(b, 2, 8, c);
    RowScoreMirror(b, 3, 8, c);
    RowScoreMirror(b, 4, 8, c);
    RowScoreMirror(b, 5, 8, c);
    RowScoreMirror(b, 6, 8, c);
    RowScoreMirror(b, 7, 8, c);
  }

  /** A board that is its own mirror image scores 0 for both sides. */
  lemma SymmetricBoardScoresZero(b: Board, c: Color)
    requires Mirror(b) == b
    ensures Evaluate(b, c) == 0
  {
    EvaluateMirror(b, c);
  }

  const BACK_RANK: seq<PieceSymbol> := [Rook, Knight, Bishop, Queen, King, Bishop, Knight, Rook]

  function BackRow(c: Color): Row {
    seq(8, f requires 0 <= f < 8 => Some(Piece(BACK_RANK[f], c)))
  }

  function PawnRow(c: Color): Row {
    seq(8, f requires 0 <= f < 8 => Some(Piece(Pawn, c)))
  }

  /** The initial position as board() returns it. */
  const START_BOARD: Board := [BackRow(Black), PawnRow(Black), EMPTY_ROW, EMPTY_ROW,
                               EMPTY_ROW, EMPTY_ROW, PawnRow(White), BackRow(White)]

  lemma StartBoardIsSymmetric()
    ensures Mirror(START_BOARD) == START_BOARD
  {
    var m := Mirror(START_BOARD);
    forall r | 0 <= r < 8
      ensures m[r] == START_BOARD[r]
    {
      assert |m[r]| == |START_BOARD[r]| == 8;
      forall f | 0 <= f < 8
        ensures m[r][f] == START_BOARD[r][f]
      {
      }
    }
  }

  lemma StartPositionScoresZero(c: Color)
    ensures Evaluate(START_BOARD, c) == 0
  {
    StartBoardIsSymmetric();
    SymmetricBoardScoresZero(START_BOARD, c);
  }

  // ---------------------------------------------------------------------------
  // Scores with the two infinities of the search

  /** A score or one of the -Infinity / Infinity bounds. */
  datatype ExtInt = NegInf | Fin(n: int) | PosInf

  predicate Le(a: ExtInt, b: ExtInt) {
    a.NegInf? || b.PosInf? || (a.Fin? && b.Fin? && a.n <= b.n)
  }

  predicate Lt(a: ExtInt, b: ExtInt) {
    !Le(b, a)
  }

  /** Math.max */
  function Max(a: ExtInt, b: ExtInt): (m: ExtInt)
    ensures Le(a, m) && Le(b, m) && (m == a || m == b)
  {
    if Le(a, b) then b else a
  }

  /** Math.min */
  function Min(a: ExtInt, b: ExtInt): (m: ExtInt)
    ensures Le(m, a) && Le(m, b) && (m == a || m == b)
  {
    if Le(a, b) then a else b
  }

  // ---------------------------------------------------------------------------
  // The value of the depth-limited game tree, without pruning

  /** The full minimax value: the evaluation at depth 0 or at a finished game, otherwise the
      best child value for the side the search maximises or minimises. */
  function MinimaxValue(t: GameTree, depth: int, maximizing: bool, ai: Color): ExtInt
    decreases t, 1
  {
    if depth == 0 || t.flags.gameOver then Fin(Evaluate(t.board, ai))
    else if maximizing then MaxOfChildren(t, |t.children|, depth, ai)
    else MinOfChildren(t, |t.children|, depth, ai)
  }

  /** The largest value among the first k children (-Infinity for none). */
  function MaxOfChildren(t: GameTree, k: nat, depth: int, ai: Color): ExtInt
    requires k <= |t.children|
    decreases t, 0, k
  {
    if k == 0 then NegInf
    else Max(MaxOfChildren(t, k - 1, depth, ai), MinimaxValue(t.children[k - 1].node, depth - 1, false, ai))
  }

  /** The smallest value among the first k children (Infinity for none). */
  function MinOfChildren(t: GameTree, k: nat, depth: int, ai: Color): ExtInt
    requires k <= |t.children|
    decreases t, 0, k
  {
    if k == 0 then PosInf
    else Min(MinOfChildren(t, k - 1, depth, ai), MinimaxValue(t.children[k - 1].node, depth - 1, true, ai))
  }

  lemma {:induction false} MaxOfChildrenBounds(t: GameTree, i: nat, k: nat, depth: int, ai: Color)
    requires i < k <= |t.children|
    ensures Le(MinimaxValue(t.children[i].node, depth - 1, false, ai), MaxOfChildren(t, k, depth, ai))
    decreases k
  {
    if i < k - 1 {
      MaxOfChildrenBounds(t, i, k - 1, depth, ai);
    }
  }

  lemma {:induction false} MinOfChildrenBounds(t: GameTree, i: nat, k: nat, depth: int, ai: Color)
    requires i < k <= |t.children|
    ensures Le(MinOfChildren(t, k, depth, ai), MinimaxValue(t.children[i].node, depth - 1, true, ai))
    decreases k
  {
    if i < k - 1 {
      MinOfChildrenBounds(t, i, k - 1, depth, ai);
    }
  }

  // ---------------------------------------------------------------------------
  // What the pruned search computes

  /** The search as written: depth 0 or a finished game evaluates the board; otherwise the
      children are searched in order, the window narrowed after each, and the scan stops as
      soon as beta <= alpha. The best value seen is returned (fail-soft). */
  function AlphaBeta(t: GameTree, depth: int, alpha: ExtInt, beta: ExtInt, maximizing: bool, ai: Color): ExtInt
    decreases t, 1
  {
    if depth == 0 || t.flags.gameOver then Fin(Evaluate(t.board, ai))
    else if maximizing then MaxLoop(t, 0, depth, alpha, beta, NegInf, ai)
    else MinLoop(t, 0, depth, alpha, beta, PosInf, ai)
  }

  /** The maximising loop from child i on, with the current alpha and maxEval. */
  function MaxLoop(t: GameTree, i: nat, depth: int, alpha: ExtInt, beta: ExtInt, maxEval: ExtInt, ai: Color): ExtInt
    requires i <= |t.children|
    decreases t, 0, |t.children| - i
  {
    if i == |t.children| then maxEval
    else
      var evaluation := AlphaBeta(t.children[i].node, depth - 1, alpha, beta, false, ai);
      var maxEval' := Max(maxEval, evaluation);
      var alpha' := Max(alpha, evaluation);
      if Le(beta, alpha') then maxEval' else MaxLoop(t, i + 1, depth, alpha', beta, maxEval', ai)
  }

  /** The minimising loop from child i on, with the current beta and minEval. */
  function MinLoop(t: GameTree, i: nat, depth: int, alpha: ExtInt, beta: ExtInt, minEval: ExtInt, ai: Color): ExtInt
    requires i <= |t.children|
    decreases t, 0, |t.children| - i
  {
    if i == |t.children| then minEval
    else
      var evaluation := AlphaBeta(t.children[i].node, depth - 1, alpha, beta, true, ai);
      var minEval' := Min(minEval, evaluation);
      var beta' := Min(beta, evaluation);
      if Le(beta', alpha) then minEval' else MinLoop(t, i + 1, depth, alpha, beta', minEval', ai)
  }

  /** The fail-soft contract of a search result r against the true value v for a window
      (alpha, beta): a result at or below alpha is an upper bound, one at or above beta a lower
      bound, and one strictly inside the window is exact. */
  predicate FailSoft(r: ExtInt, v: ExtInt, alpha: ExtInt, beta: ExtInt) {
    && (Le(r, alpha) ==> Le(v, r))
    && (Le(beta, r) ==> Le(r, v))
    && (Lt(alpha, r) && Lt(r, beta) ==> r == v)
  }

  lemma {:induction false} AlphaBetaFailSoft(t: GameTree, depth: int, alpha: ExtInt, beta: ExtInt, maximizing: bool, ai: Color)
    requires Lt(alpha, beta)
    ensures FailSoft(AlphaBeta(t, depth, alpha, beta, maximizing, ai), MinimaxValue(t, depth, maximizing, ai), alpha, beta)
    decreases t, 1
  {
    if depth == 0 || t.flags.gameOver {
    } else if maximizing {
      MaxLoopFailSoft(t, 0, depth, alpha, alpha, beta, NegInf, ai);
    } else {
      MinLoopFailSoft(t, 0, depth, alpha, beta, beta, PosInf, ai);
    }
  }

  /** The maximising loop keeps: alpha is the larger of the original alpha and maxEval, the
      window is still open, maxEval bounds the values of the children seen so far from above,
      and equals their maximum once it exceeds the original alpha. */
  lemma {:induction false} MaxLoopFailSoft(t: GameTree, i: nat, depth: int, alpha0: ExtInt, alpha: ExtInt, beta: ExtInt,
                                           maxEval: ExtInt, ai: Color)
    requires i <= |t.children|
    requires alpha == Max(alpha0, maxEval) && Lt(alpha, beta)
    requires Le(MaxOfChildren(t, i, depth, ai), maxEval)
    requires Lt(alpha0, maxEval) ==> maxEval == MaxOfChildren(t, i, depth, ai)
    ensures FailSoft(MaxLoop(t, i, depth, alpha, beta, maxEval, ai), MaxOfChildren(t, |t.children|, depth, ai), alpha0, beta)
    decreases t, 0, |t.children| - i
  {
    if i < |t.children| {
      var child := t.children[i].node;
      var e := AlphaBeta(child, depth - 1, alpha, beta, false, ai);
      var v := MinimaxValue(child, depth - 1, false, ai);
      AlphaBetaFailSoft(child, depth - 1, alpha, beta, false, ai);
      var maxEval' := Max(maxEval, e);
      var alpha' := Max(alpha, e);
      if Le(beta, alpha') {
        MaxOfChildrenBounds(t, i, |t.children|, depth, ai);
      } else {
        assert MaxOfChildren(t, i + 1, depth, ai) == Max(MaxOfChildren(t, i, depth, ai), v);
        MaxLoopFailSoft(t, i + 1, depth, alpha0, alpha', beta, maxEval', ai);
      }
    }
  }

  lemma {:induction false} MinLoopFailSoft(t: GameTree, i: nat, depth: int, alpha: ExtInt, beta0: ExtInt, beta: ExtInt,
                                           minEval: ExtInt, ai: Color)
    requires i <= |t.children|
    requires beta == Min(beta0, minEval) && Lt(alpha, beta)
    requires Le(minEval, MinOfChildren(t, i, depth, ai))
    requires Lt(minEval, beta0) ==> minEval == MinOfChildren(t, i, depth, ai)
    ensures FailSoft(MinLoop(t, i, depth, alpha, beta, minEval, ai), MinOfChildren(t, |t.children|, depth, ai), alpha, beta0)
    decreases t, 0, |t.children| - i
  {
    if i < |t.children| {
      var child := t.children[i].node;
      var e := AlphaBeta(child, depth - 1, alpha, beta, true, ai);
      var v := MinimaxValue(child, depth - 1, true, ai);
      AlphaBetaFailSoft(child, depth - 1, alpha, beta, true, ai);
      var minEval' := Min(minEval, e);
      var beta' := Min(beta, e);
      if Le(beta', alpha) {
        MinOfChildrenBounds(t, i, |t.children|, depth, ai);
      } else {
        assert MinOfChildren(t, i + 1, depth, ai) == Min(MinOfChildren(t, i, depth, ai), v);
        MinLoopFailSoft(t, i + 1, depth, alpha, beta0, beta', minEval', ai);
      }
    }
  }

  /** A tree as the rules library builds it: every position that is not over has a legal move. */
  predicate Consistent(t: GameTree)
    decreases t
  {
    && (!t.flags.gameOver ==> |t.children| > 0)
    && forall i :: 0 <= i < |t.children| ==> Consistent(t.children[i].node)
  }

  /** On such a tree every minimax value is a finite score: the infinities are only starting points. */
  lemma {:induction false} MinimaxIsFinite(t: GameTree, depth: int, maximizing: bool, ai: Color)
    requires Consistent(t)
    ensures MinimaxValue(t, depth, maximizing, ai).Fin?
    decreases t, 1
  {
    if !(depth == 0 || t.flags.gameOver) {
      if maximizing {
        ChildrenAreFinite(t, |t.children|, depth, ai);
      } else {
        ChildrenAreFinite(t, |t.children|, depth, ai);
      }
    }
  }

  lemma {:induction false} ChildrenAreFinite(t: GameTree, k: nat, depth: int, ai: Color)
    requires Consistent(t) && 0 < k <= |t.children|
    ensures MaxOfChildren(t, k, depth, ai).Fin? && MinOfChildren(t, k, depth, ai).Fin?
    decreases t, 0, k
  {
    MinimaxIsFinite(t.children[k - 1].node, depth - 1, false, ai);
    MinimaxIsFinite(t.children[k - 1].node, depth - 1, true, ai);
    if k > 1 {
      ChildrenAreFinite(t, k - 1, depth, ai);
    }
  }

  /** With the window (-Infinity, +Infinity) pruning changes nothing: the search returns the full minimax value. */
  lemma FullWindowIsMinimax(t: GameTree, depth: int, maximizing: bool, ai: Color)
    ensures AlphaBeta(t, depth, NegInf, PosInf, maximizing, ai) == MinimaxValue(t, depth, maximizing, ai)
  {
    AlphaBetaFailSoft(t, depth, NegInf, PosInf, maximizing, ai);
  }

  /** One turn of the maximising loop, unfolded. */
  lemma MaxLoopStep(t: GameTree, i: nat, depth: int, alpha: ExtInt, beta: ExtInt, maxEval: ExtInt, ai: Color)
    requires i < |t.children|
    ensures var e := AlphaBeta(t.children[i].node, depth - 1, alpha, beta, false, ai);
      MaxLoop(t, i, depth, alpha, beta, maxEval, ai) ==
        if Le(beta, Max(alpha, e)) then Max(maxEval, e)
        else MaxLoop(t, i + 1, depth, Max(alpha, e), beta, Max(maxEval, e), ai)
  {
  }

  /** One turn of the minimising loop, unfolded. */
  lemma MinLoopStep(t: GameTree, i: nat, depth: int, alpha: ExtInt, beta: ExtInt, minEval: ExtInt, ai: Color)
    requires i < |t.children|
    ensures var e := AlphaBeta(t.children[i].node, depth - 1, alpha, beta, true, ai);
      MinLoop(t, i, depth, alpha, beta, minEval, ai) ==
        if Le(Min(beta, e), alpha) then Min(minEval, e)
        else MinLoop(t, i + 1, depth, alpha, Min(beta, e), Min(minEval, e), ai)
  {
  }

  // ---------------------------------------------------------------------------
  // The search on the game object: each move is played, searched and taken back

  /** game.move(move), minimax on the resulting position, game.undo(): the search value of the
      i-th move's position, with the game back where it was. */
  method SearchChild(game: Game, i: nat, depth: int, alpha: ExtInt, beta: ExtInt, maximizingPlayer: bool, aiColor: Color)
    returns (evaluation: ExtInt)
    requires i < |game.current.children|
    modifies game
    decreases game.current, 0
    ensures game.current == old(game.current) && game.past == old(game.past)
    ensures evaluation == AlphaBeta(old(game.current).children[i].node, depth, alpha, beta, maximizingPlayer, aiColor)
  {
    game.Play(i);
    evaluation := Minimax(game, depth, alpha, beta, maximizingPlayer, aiColor);
    game.Undo();
  }

  /** minimax: the fail-soft alpha-beta search over the game object. Every move it plays it
      takes back, so the game ends where it began. */
  method Minimax(game: Game, depth: int, alpha: ExtInt, beta: ExtInt, maximizingPlayer: bool, aiColor: Color)
    returns (value: ExtInt)
    modifies game
    decreases game.current, 1
    ensures game.current == old(game.current) && game.past == old(game.past)
    ensures value == AlphaBeta(old(game.current), depth, alpha, beta, maximizingPlayer, aiColor)
  {
    if depth == 0 || game.current.flags.gameOver {
      var score := EvaluateBoard(game, aiColor);
      return Fin(score);
    }
    var t := game.current;
    var moves := game.current.children;
    var a, b := alpha, beta;
    if maximizingPlayer {
      var maxEval := NegInf;
      var i := 0;
      while i < |moves|
        invariant 0 <= i <= |moves|
        invariant game.current == t && game.past == old(game.past)
        invariant MaxLoop(t, i, depth, a, b, maxEval, aiColor) == AlphaBeta(t, depth, alpha, beta, true, aiColor)
        decreases |moves| - i
      {
        MaxLoopStep(t, i, depth, a, b, maxEval, aiColor);
        var evaluation := SearchChild(game, i, depth - 1, a, b, false, aiColor);
        maxEval := Max(maxEval, evaluation);
        a := Max(a, evaluation);
        if Le(b, a) {
          break;
        }
        i := i + 1;
      }
      value := maxEval;
    } else {
      var minEval := PosInf;
      var i := 0;
      while i < |moves|
        invariant 0 <= i <= |moves|
        invariant game.current == t && game.past == old(game.past)
        invariant MinLoop(t, i, depth, a, b, minEval, aiColor) == AlphaBeta(t, depth, alpha, beta, false, aiColor)
        decreases |moves| - i
      {
        MinLoopStep(t, i, depth, a, b, minEval, aiColor);
        var evaluation := SearchChild(game, i, depth - 1, a, b, true, aiColor);
        minEval := Min(minEval, evaluation);
        b := Min(b, evaluation);
        if Le(b, a) {
          break;
        }
        i := i + 1;
      }
      value := minEval;
    }
  }

  // ---------------------------------------------------------------------------
  // Choosing the move at the root

  datatype EvaluatedMove = EvaluatedMove(move: Move, score: ExtInt)

  /** Each neighbour scores no higher than the one before it. */
  predicate Descending(s: seq<EvaluatedMove>) {
    forall i :: 0 < i < |s| ==> Le(s[i].score, s[i - 1].score)
  }

  /** One step of a stable sort by decreasing score: e goes after every entry scoring at least as
      much, as the comparison b.score - a.score orders entries added later. */
  function Insert(e: EvaluatedMove, s: seq<EvaluatedMove>): (r: seq<EvaluatedMove>)
    ensures |r| == |s| + 1
    ensures r[0] == (if s == [] || Lt(s[0].score, e.score) then e else s[0])
  {
    if s == [] then [e]
    else if Lt(s[0].score, e.score) then [e] + s
    else [s[0]] + Insert(e, s[1..])
  }

  /** The sort of evaluatedMoves by decreasing score, keeping equal scores in enumeration order. */
  function SortByScore(s: seq<EvaluatedMove>): (r: seq<EvaluatedMove>)
    ensures |r| == |s|
  {
    if s == [] then [] else Insert(s[|s| - 1], SortByScore(s[..|s| - 1]))
  }

  lemma {:induction false} InsertKeepsElements(e: EvaluatedMove, s: seq<EvaluatedMove>)
    ensures multiset(Insert(e, s)) == multiset(s) + multiset{e}
  {
    if s != [] && !Lt(s[0].score, e.score) {
      InsertKeepsElements(e, s[1..]);
      assert s == [s[0]] + s[1..];
    }
  }

  lemma {:induction false} InsertKeepsDescending(e: EvaluatedMove, s: seq<EvaluatedMove>)
    requires Descending(s)
    ensures Descending(Insert(e, s))
  {
    if s != [] && !Lt(s[0].score, e.score) {
      InsertKeepsDescending(e, s[1..]);
    }
  }

  /** The sort is a permutation and leaves the entries in decreasing score order. */
  lemma {:induction false} SortByScoreIsSorted(s: seq<EvaluatedMove>)
    ensures multiset(SortByScore(s)) == multiset(s)
    ensures Descending(SortByScore(s))
  {
    if s != [] {
      var init := s[..|s| - 1];
      SortByScoreIsSorted(init);
      InsertKeepsElements(s[|s| - 1], SortByScore(init));
      InsertKeepsDescending(s[|s| - 1], SortByScore(init));
      assert s == init + [s[|s| - 1]];
    }
  }

  /** The first entry with the highest score. */
  function FirstMaxIndex(s: seq<EvaluatedMove>): (k: nat)
    requires |s| > 0
    ensures k < |s|
    ensures forall j :: 0 <= j < |s| ==> Le(s[j].score, s[k].score)
    ensures forall j :: 0 <= j < k ==> Lt(s[j].score, s[k].score)
  {
    if |s| == 1 then 0
    else
      var k := FirstMaxIndex(s[..|s| - 1]);
      if Lt(s[k].score, s[|s| - 1].score) then |s| - 1 else k
  }

  /** Stability at the head: the entry the sort puts first is the earliest best-scored one. */
  lemma {:induction false} SortHeadIsFirstMax(s: seq<EvaluatedMove>)
    requires |s| > 0
    ensures SortByScore(s)[0] == s[FirstMaxIndex(s)]
  {
    if |s| > 1 {
      var init := s[..|s| - 1];
      SortHeadIsFirstMax(init);
      assert init[FirstMaxIndex(init)] == s[FirstMaxIndex(init)];
    }
  }

  /** The move list of getBestMove before sorting: each root move with the score of the
      full-window search one ply shallower, the opponent to move. */
  function RootEvaluations(t: GameTree, depth: int, ai: Color): (es: seq<EvaluatedMove>)
    ensures |es| == |t.children|
    ensures forall j :: 0 <= j < |es| ==> es[j].move == t.children[j].move
  {
    seq(|t.children|, j requires 0 <= j < |t.children| =>
      EvaluatedMove(t.children[j].move, AlphaBeta(t.children[j].node, depth - 1, NegInf, PosInf, false, ai)))
  }

  /** The index of the move getBestMove returns. */
  function BestIndex(t: GameTree, depth: int, ai: Color): (k: nat)
    requires |t.children| > 0
    ensures k < |t.children|
  {
    FirstMaxIndex(RootEvaluations(t, depth, ai))
  }

  /** getBestMove picks a move of highest minimax value one ply down, the earliest in the
      enumeration order among moves of equal value. */
  lemma BestIndexIsOptimal(t: GameTree, depth: int, ai: Color)
    requires |t.children| > 0
    ensures var k := BestIndex(t, depth, ai);
      && (forall j :: 0 <= j < |t.children| ==>
            Le(MinimaxValue(t.children[j].node, depth - 1, false, ai), MinimaxValue(t.children[k].node, depth - 1, false, ai)))
      && (forall j :: 0 <= j < k ==>
            Lt(MinimaxValue(t.children[j].node, depth - 1, false, ai), MinimaxValue(t.children[k].node, depth - 1, false, ai)))
  {
    var es := RootEvaluations(t, depth, ai);
    forall j | 0 <= j < |t.children|
      ensures es[j].score == MinimaxValue(t.children[j].node, depth - 1, false, ai)
    {
      FullWindowIsMinimax(t.children[j].node, depth - 1, false, ai);
    }
  }

  /** getBestMove: null without legal moves, otherwise the head of the sorted evaluations. */
  method GetBestMove(game: Game, depth: int) returns (best: Option<Move>)
    modifies game
    ensures game.current == old(game.current) && game.past == old(game.past)
    ensures best.None? <==> |game.current.children| == 0
    ensures best.Some? ==> best.value == game.current.children[BestIndex(game.current, depth, game.current.turn)].move
  {
    var moves := game.Moves();
    if |moves| == 0 {
      return None;
    }
    var t := game.current;
    var aiColor := game.Turn();
    var evaluatedMoves: seq<EvaluatedMove> := [];
    for i := 0 to |moves|
      invariant game.current == t && game.past == old(game.past)
      invariant evaluatedMoves == RootEvaluations(t, depth, aiColor)[..i]
    {
      var score := SearchChild(game, i, depth - 1, NegInf, PosInf, false, aiColor);
      evaluatedMoves := evaluatedMoves + [EvaluatedMove(moves[i], score)];
    }
    assert evaluatedMoves == RootEvaluations(t, depth, aiColor);
    var sorted := SortByScore(evaluatedMoves);
    SortHeadIsFirstMax(evaluatedMoves);
    best := Some(sorted[0].move);
  }

  /** getRandomMove: null without legal moves, otherwise the move at floor(draw * n). */
  method GetRandomMove(game: Game, draw: real) returns (m: Option<Move>)
    requires IsDraw(draw)
    ensures m.None? <==> |game.Moves()| == 0
    ensures m.Some? ==> m.value == game.Moves()[RandomIndex(draw, |game.Moves()|)]
  {
    var moves := game.Moves();
    if |moves| == 0 {
      return None;
    }
    m := Some(moves[RandomIndex(draw, |moves|)]);
  }

  /** getMediumMove: a random move when the first draw is below 0.3, otherwise the best move at depth 2. */
  method GetMediumMove(game: Game, randomFactor: real, draw: real) returns (m: Option<Move>)
    requires IsDraw(randomFactor) && IsDraw(draw)
    modifies game
    ensures game.current == old(game.current) && game.past == old(game.past)
    ensures m.None? <==> |game.current.children| == 0
    ensures m.Some? && randomFactor < 0.3 ==> m.value == game.Moves()[RandomIndex(draw, |game.Moves()|)]
    ensures m.Some? && randomFactor >= 0.3 ==> m.value == game.current.children[BestIndex(game.current, 2, game.Turn())].move
  {
    if randomFactor < 0.3 {
      m := GetRandomMove(game, draw);
    } else {
      m := GetBestMove(game, 2);
    }
  }

  /** getAIMove: easy plays a random move 70% of the time and otherwise the best move at depth 1,
      medium delegates to getMediumMove and hard plays the best move at depth 3. The game is left
      as it was, and any move returned is legal. The code writes the depths out; the contract
      states that they are the configured `SearchDepth` of each level. */
  method GetAIMove(game: Game, difficulty: Difficulty, draw1: real, draw2: real) returns (m: Option<Move>)
    requires IsDraw(draw1) && IsDraw(draw2)
    modifies game
    ensures game.current == old(game.current) && game.past == old(game.past)
    ensures m.None? <==> |game.Moves()| == 0
    ensures m.Some? ==> m.value in game.Moves()
    ensures m.Some? && difficulty == Easy && draw1 < 0.7 ==>
      m.value == game.Moves()[RandomIndex(draw2, |game.Moves()|)]
    ensures m.Some? && difficulty == Easy && draw1 >= 0.7 ==>
      m.value == game.current.children[BestIndex(game.current, Constants.SearchDepth(Easy), game.Turn())].move
    ensures m.Some? && difficulty == Medium && draw1 < 0.3 ==>
      m.value == game.Moves()[RandomIndex(draw2, |game.Moves()|)]
    ensures m.Some? && difficulty == Medium && draw1 >= 0.3 ==>
      m.value == game.current.children[BestIndex(game.current, Constants.SearchDepth(Medium), game.Turn())].move
    ensures m.Some? && difficulty == Hard ==>
      m.value == game.current.children[BestIndex(game.current, Constants.SearchDepth(Hard), game.Turn())].move
  {
    match difficulty
    case Easy =>
      if draw1 < 0.7 {
        m := GetRandomMove(game, draw2);
      } else {
        m := GetBestMove(game, 1);
      }
    case Medium =>
      m := GetMediumMove(game, draw1, draw2);
    case Hard =>
      m := GetBestMove(game, 3);
  }
}
