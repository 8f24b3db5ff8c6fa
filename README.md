# my-chess core in Dafny

A Dafny model of the logic behind the my-chess React application: the computer opponent
(static evaluation, depth-bounded minimax with alpha-beta pruning, root move selection and the
Easy/Medium/Hard dispatch), the opening-name detector, the opening book, the chess utility
helpers (square notation, square colours, FEN splitting), the game hook's click state machine,
the move-history pairing, the responsive square size and the application constants.

The chess rules library (chess.js) is not part of this model. It is represented by an abstract,
finite game tree (`Rules.GameTree`): each node carries the board, the side to move, the
library's status answers (checkmate, draw, stalemate, ...) and the ordered list of legal moves,
each with the position it leads to. `Rules.Game` is a class holding the current node and the
undo stack, with `Play`, `MoveFromTo`, `Undo` and `Reset` updating it in place like the
library's `move`, `undo` and `reset`. Calls to `Math.random()` become `real` parameters in
[0, 1) (`RandomDraw.IsDraw`); `Math.floor(Math.random() * n)` is `RandomDraw.RandomIndex`.

Modules and files:

- `types.dfy` (`ChessTypes`): colours, piece symbols, the verbose move record, difficulty levels,
  the promotion dialog state.
- `constants.dfy` (`Constants`): layout, colour and search constants, the material table, `getPadding`.
- `chess_utils.dfy` (`ChessUtils`): square notation and its inverse, square colours, `parseFEN`
  with the string split it relies on, `parseInt` on a digit run.
- `rules.dfy` (`Rules`): the abstract rules library and its game object.
- `random_draw.dfy` (`RandomDraw`): the random index.
- `chess_ai.dfy` (`ChessAI`): `evaluateBoard`, `minimax`, `getBestMove`, `getRandomMove`,
  `getMediumMove`, `getAIMove`.
- `opening_detector.dfy` (`OpeningDetector`): the 71-line opening database, `detectOpening`,
  `getShortOpeningName`.
- `opening_book.dfy` (`OpeningBook`): `getBookMove`, `isInBook`, `getBookStats`, and a
  representative ten-position part of the book table.
- `use_chess_game.dfy` (`UseChessGame`): `squareName`, the status string, and the hook's state
  as the class `ChessGameState` with `onSquareClick`, `handlePromotion`, `reset`, `undo` and `setFlip`.
- `move_history.dfy` (`MoveHistory`): the move-pair grouping and the panel width.
- `responsive_square_size.dfy` (`ResponsiveSquareSize`): `calculateSquareSize`.

The search follows the code as written: a plain minimax over the side that `minimax`'s
`maximizingPlayer` flag names, with fail-soft alpha-beta cut-offs and `-Infinity`/`+Infinity`
bounds. `ChessAI.ExtInt` gives those infinities. `ChessAI.Minimax` is an imperative method that
plays each move on the shared game object, recurses, and takes the move back. It is proved equal to
the functional `AlphaBeta`, whose loops mirror the code's loops including the `break`. Lemmas then
relate `AlphaBeta` to the unpruned `MinimaxValue`: the fail-soft bounds for every window, and
equality for the full window used at the root. The root selection (`getBestMove`) evaluates every
move, sorts stably by descending score and takes the head. The model proves that this head is the
earliest move of maximal minimax value.

Where the comments in the code and the code disagree, the model follows the code. The doc comment of
`isDarkSquare` (`src/utils/chessUtils.ts:50-53`) says that `(0, 0)` (a8) and `(7, 7)` (h1) are dark
and `(0, 1)` (b8) is light. The code makes those two light and b8 dark, which is also the real
chessboard (a1 dark, h1 light); `ChessUtils.DarkSquareParity` states what the code computes.

## Model

| member | source | states |
|---|---|---|
| ChessAI.PieceValuesAgree | src/utils/chessAI.ts:11-18 | the search's material table is the one the constants file exports |
| Constants.PieceValue | src/utils/constants.ts:106-113 | every piece is worth at least a pawn (100) and only the king has the value 20000 |
| Constants.SearchDepth | src/utils/constants.ts:120-130 | every difficulty searches between one and three plies; `ChessAI.GetAIMove`'s contract states that the depths its code writes out (1, 2, 3) are these values |
| Constants.DepthsIncrease | src/utils/constants.ts:120-130 | Easy searches less deep than Medium, and Medium less deep than Hard |
| Constants.IsMobileSize | src/utils/constants.ts:141-143 | mobile exactly below the 70-pixel breakpoint; GetPadding's contract states the padding that follows |
| Constants.GetPadding | src/utils/constants.ts:141-153 | small padding exactly for mobile-sized squares (below 70), medium padding otherwise; the large padding is never chosen |
| ChessAI.PositionTablesAre8x8 | src/utils/chessAI.ts:20-81 | every positional table has eight rows of eight entries, so every lookup of the evaluation is in range |
| ChessAI.Evaluate | src/utils/chessAI.ts:83-109 | the board score as a sum over the eight ranks of the square scores; the lemmas below state its symmetries |
| ChessAI.EvaluateBoard | src/utils/chessAI.ts:83-109 | the nested loop over the 64 squares returns the signed sum of material plus positional bonus (mirrored rank for Black) of the board, for the requested side |
| ChessAI.EvaluateAntisymmetric | src/utils/chessAI.ts:100-104 | the score for White is the negation of the score for Black on every board |
| ChessAI.EmptyBoardScoresZero | src/utils/chessAI.ts:87-106 | a board with no pieces scores zero for either side |
| ChessAI.EvaluateMirror | src/utils/chessAI.ts:96-104 | flipping the board top to bottom and swapping the colours of all pieces negates the score: the Black tables are exactly the reflected White tables |
| ChessAI.SymmetricBoardScoresZero | src/utils/chessAI.ts:96-104 | a board equal to its colour-swapped mirror image scores zero |
| ChessAI.StartBoardIsSymmetric | src/utils/chessAI.ts:96-97 | the initial position equals its colour-swapped mirror image |
| ChessAI.StartPositionScoresZero | src/utils/chessAI.ts:83-109 | the initial position is symmetric and scores zero for either side |
| ChessAI.Max | src/utils/chessAI.ts:132 | maximum of extended integers: an upper bound of both arguments and one of them |
| ChessAI.Min | src/utils/chessAI.ts:143 | minimum of extended integers: a lower bound of both arguments and one of them |
| ChessAI.MaxOfChildrenBounds | src/utils/chessAI.ts:125-135 | the best value over the first k children bounds each of them from above |
| ChessAI.MinOfChildrenBounds | src/utils/chessAI.ts:136-147 | the worst value over the first k children bounds each of them from below |
| ChessAI.AlphaBeta | src/utils/chessAI.ts:111-148 | the pruned search as a function, the maximiser's and minimiser's loops with their cut-offs; AlphaBetaFailSoft and FullWindowIsMinimax state what it computes |
| ChessAI.Minimax | src/utils/chessAI.ts:111-148 | the recursive search over the shared game object leaves position and history as they were and returns the alpha-beta value of the position for the given window and depth; leaves and game-over positions return the static evaluation for the AI colour |
| ChessAI.SearchChild | src/utils/chessAI.ts:128-130 | playing the i-th move, searching and undoing returns the child's alpha-beta value and restores the game |
| ChessAI.AlphaBetaFailSoft | src/utils/chessAI.ts:111-148 | for every non-empty window the pruned value is fail-soft: inside the window it equals the true minimax value, below alpha it is an upper bound of it, above beta a lower bound |
| ChessAI.MaxLoopFailSoft | src/utils/chessAI.ts:125-135 | the maximiser's loop with its cut-off is fail-soft with respect to the best child value |
| ChessAI.MinLoopFailSoft | src/utils/chessAI.ts:136-147 | the minimiser's loop with its cut-off is fail-soft with respect to the worst child value |
| ChessAI.FullWindowIsMinimax | src/utils/chessAI.ts:159 | with the window (-Infinity, +Infinity) used at the root, pruning changes nothing: the search returns the exact minimax value |
| ChessAI.MinimaxIsFinite | src/utils/chessAI.ts:119-121 | in a tree where every position without moves is flagged game over, every searched value is a finite score |
| ChessAI.ChildrenAreFinite | src/utils/chessAI.ts:125-147 | in such a tree the best and worst child values are finite |
| ChessAI.SortByScore | src/utils/chessAI.ts:164 | the stable descending sort keeps the length; SortByScoreIsSorted and SortHeadIsFirstMax state its order and contents |
| ChessAI.InsertKeepsElements | src/utils/chessAI.ts:164 | inserting into the sorted list adds exactly that element |
| ChessAI.InsertKeepsDescending | src/utils/chessAI.ts:164 | inserting into a descending list keeps it descending |
| ChessAI.SortByScoreIsSorted | src/utils/chessAI.ts:164 | the descending sort by score is a permutation of its input and is sorted |
| ChessAI.FirstMaxIndex | src/utils/chessAI.ts:164-166 | the index of a maximal score with no maximal score before it |
| ChessAI.SortHeadIsFirstMax | src/utils/chessAI.ts:164-166 | because the sort is stable, its head is the earliest element of maximal score |
| ChessAI.BestIndexIsOptimal | src/utils/chessAI.ts:150-167 | the chosen root move has the greatest minimax value among all legal moves and is the first in move order with that value |
| ChessAI.GetBestMove | src/utils/chessAI.ts:150-167 | leaves the game as it was; no move exactly when there are no legal moves, otherwise the optimal move of the side to move at the given depth |
| ChessAI.GetRandomMove | src/utils/chessAI.ts:169-173 | no move exactly when there are no legal moves, otherwise the legal move at the drawn index |
| ChessAI.GetMediumMove | src/utils/chessAI.ts:175-181 | with a draw below 0.3 a random legal move, otherwise the depth-2 best move; the game is left as it was |
| ChessAI.GetAIMove | src/utils/chessAI.ts:183-194 | no move exactly when there are no legal moves; any move returned is legal; Easy plays randomly with a draw below 0.7 and otherwise the best move at `SearchDepth(Easy)` (1), Medium as above at `SearchDepth(Medium)` (2), Hard the best move at `SearchDepth(Hard)` (3) |
| ChessUtils.SquareToIndices | src/utils/chessUtils.ts:20-24 | a square's row index is eight minus its rank digit and its column index is its file letter's position |
| ChessUtils.IndicesToSquare | src/utils/chessUtils.ts:37-41 | the square at a row and column has that file letter and rank eight minus the row |
| ChessUtils.SquareRoundTrip | src/utils/chessUtils.ts:20-41 | converting a square to indices and back gives the same square |
| ChessUtils.IndicesRoundTrip | src/utils/chessUtils.ts:20-41 | converting indices to a square and back gives the same indices |
| ChessUtils.ConversionExamples | src/utils/chessUtils.ts:10-36 | e4 is (4, 4) and a1 is (7, 0), in both directions |
| ChessUtils.IsDarkSquare | src/utils/chessUtils.ts:55-57 | dark exactly when row plus column is odd; DarkSquareParity states the resulting colouring |
| ChessUtils.DarkSquareParity | src/utils/chessUtils.ts:55-57 | neighbouring squares along a rank or a file have opposite colours; a1 and b8 are dark, h1 and a8 light |
| ChessUtils.GetSquareColor | src/utils/chessUtils.ts:72-89 | the last-move highlight wins over the selection, which wins over the legal-move highlight, which wins over the plain light or dark colour |
| ChessUtils.IsValidSquare | src/utils/chessUtils.ts:102-112 | two characters, a file letter a-h then a rank digit 1-8; ValidSquaresAreTheBoard proves these are exactly the 64 board squares |
| ChessUtils.ValidSquareExamples | src/utils/chessUtils.ts:102-112 | e4 is a valid square; z9 and a one-character string are not |
| ChessUtils.ValidSquaresAreTheBoard | src/utils/chessUtils.ts:102-112 | a string is a valid square exactly when it names one of the 64 board squares |
| ChessUtils.GetOppositeColor | src/utils/chessUtils.ts:124-126 | the opposite colour differs from the given one |
| ChessUtils.OppositeIsInvolution | src/utils/chessUtils.ts:124-126 | taking the opposite colour twice gives back the colour |
| ChessUtils.GetColorName | src/utils/chessUtils.ts:138-140 | White for 'w' and Black for 'b' |
| ChessUtils.IsPromotionRank | src/utils/chessUtils.ts:154-157 | rank 8 for White and rank 1 for Black; PromotionRankIsFarEdge states it in board rows |
| ChessUtils.PromotionRankIsFarEdge | src/utils/chessUtils.ts:154-157 | a square is White's promotion square exactly when it is on the top row, Black's when it is on the bottom row |
| ChessUtils.Split | src/utils/chessUtils.ts:170 | splitting on a separator yields at least one part, no part contains the separator, and joining the parts restores the string |
| ChessUtils.SplitJoin | src/utils/chessUtils.ts:170 | splitting the join of separator-free parts gives back those parts |
| ChessUtils.ParseInt | src/utils/chessUtils.ts:176-177 | a number exactly when the text starts with a digit, and then a non-negative one |
| ChessUtils.ParseIntRoundTrip | src/utils/chessUtils.ts:176-177 | reading back the decimal form of a natural number gives that number |
| ChessUtils.ParseFEN | src/utils/chessUtils.ts:169-179 | the position field never contains a space, and a string without spaces is all position, with no other fields and the default counters 0 and 1 |
| ChessUtils.ParseFENRoundTrip | src/utils/chessUtils.ts:169-179 | a FEN string assembled from six fields parses back into exactly those fields |
| ChessUtils.ParseFENDefaults | src/utils/chessUtils.ts:169-179 | a FEN string without the two move counters parses with halfmove 0 and fullmove 1 |
| ChessUtils.ParseFENEmptyCounters | src/utils/chessUtils.ts:169-179 | a FEN string whose two counter fields are present but empty also parses with halfmove 0 and fullmove 1 |
| ChessUtils.ParseFENOfEmpty | src/utils/chessUtils.ts:169-179 | the empty string parses into an empty position, no other fields, and the default counters |
| Rules.FindMove | src/utils/chessAI.ts:128 | the first legal move matching an object move (origin, destination, requested promotion), or none when no legal move matches |
| Rules.Game.constructor | src/hooks/useChessGame.ts:6 | `new Chess()`: a game positioned at the given start tree with an empty history |
| Rules.Game.Play | src/utils/chessAI.ts:128-130 | playing a legal move moves to its position and records it at the end of the history |
| Rules.Game.MoveFromTo | src/hooks/useChessGame.ts:54 | an object move succeeds exactly when a legal move matches; it then plays the first such move, otherwise nothing changes |
| Rules.Game.Undo | src/hooks/useChessGame.ts:85 | takes back the last move, restoring the position it was played from; with no move played it changes nothing |
| Rules.Game.Reset | src/hooks/useChessGame.ts:77 | returns to the starting position with an empty history |
| OpeningDetector.AgreeFrom | src/utils/openingDetector.ts:140-145 | an opening line agrees with the played moves from position i on exactly when every later move matches |
| OpeningDetector.EntryMatches | src/utils/openingDetector.ts:135-148 | an opening matches exactly when its line is a prefix of the played moves; a line longer than the game never matches |
| OpeningDetector.Filter | src/utils/openingDetector.ts:135-148 | the kept openings are exactly the database entries that match |
| OpeningDetector.Longer | src/utils/openingDetector.ts:151-156 | the reduce step keeps one of the two openings, one at least as long as both |
| OpeningDetector.FoldLongestSnoc | src/utils/openingDetector.ts:151-156 | the left fold over a list extended by one element is one more reduce step |
| OpeningDetector.BestMatch | src/utils/openingDetector.ts:135-156 | reference definition: no index when no entry matches, otherwise a matching entry that is longest among the matching ones and the first such in database order |
| OpeningDetector.LongestOfFilterIsBestMatch | src/utils/openingDetector.ts:135-156 | the code's filter-then-reduce picks exactly the reference best match: the first longest matching line |
| OpeningDetector.DetectOpeningIn | src/utils/openingDetector.ts:126-177 | "Starting Position" for an empty game; otherwise the name of the best matching line, or the first-move fallback when no line matches |
| OpeningDetector.FallbackNames | src/utils/openingDetector.ts:159-176 | without a database match, a one-move game is named by its move: e4 King's Pawn Opening, d4 Queen's Pawn Opening, c4 English Opening, Nf3 Reti Opening, any other move Uncommon Opening; a longer game starting e4 e5 is King's Pawn Game, e4 with another reply King's Pawn Opening, d4 Queen's Pawn Opening, anything else Custom Opening |
| OpeningDetector.FindFirst | src/utils/openingDetector.ts:186-192 | the first position where a pattern occurs in a name, none exactly when it does not occur |
| OpeningDetector.RemoveFirst | src/utils/openingDetector.ts:186-192 | replacing the first occurrence of a pattern with nothing: the name is the result with the pattern put back at that position, so it is shorter by the pattern's length; unchanged when the pattern does not occur |
| OpeningDetector.RemoveEach | src/utils/openingDetector.ts:187-193 | the chain of replacements, each applied to what the previous ones left, never lengthens the name |
| OpeningDetector.RemoveEachUnchanged | src/utils/openingDetector.ts:187-193 | a name containing none of the patterns passes the chain unchanged |
| OpeningDetector.RemoveEachShortens | src/utils/openingDetector.ts:187-193 | a name containing one of the (non-empty) patterns comes out strictly shorter |
| OpeningDetector.ShortName | src/utils/openingDetector.ts:187-193 | the six suffix removals in the source's order; ShortNameProperties states what they do |
| OpeningDetector.ShortNameProperties | src/utils/openingDetector.ts:183-194 | the short name is never longer than the full name; it equals the full name when none of the suffixes occurs and is strictly shorter when one does |
| OpeningDetector.DetectOpening | src/utils/openingDetector.ts:25-177 | detectOpening over the 71-line database; DetectOpeningIn states its result for every database |
| OpeningDetector.GetShortOpeningName | src/utils/openingDetector.ts:183-194 | the short name of a game is never longer than its detected opening name |
| OpeningBook.Keys | src/utils/openingBook.ts:887-888 | the set of positions in the book is exactly the set of keys of its entries |
| OpeningBook.Lookup | src/utils/openingBook.ts:860 | the entry's move list for a position in the book, nothing for a position not in it |
| OpeningBook.GetBookMove | src/utils/openingBook.ts:859-868 | no move exactly when the position is missing or has an empty list; otherwise the move at the drawn index, which is one of the listed moves |
| OpeningBook.IsInBook | src/utils/openingBook.ts:878-880 | true exactly when some entry has that position as key |
| OpeningBook.BookMoveIffInBook | src/utils/openingBook.ts:859-880 | in a well-formed book a move is proposed exactly for the positions in the book, and it is a coordinate move |
| OpeningBook.BookMoveImpliesInBook | src/utils/openingBook.ts:859-880 | in any book a proposed move implies the position is in the book |
| OpeningBook.KeysCount | src/utils/openingBook.ts:887-888 | with distinct keys the number of positions reported is the number of distinct positions |
| OpeningBook.MovesAtLeastPositions | src/utils/openingBook.ts:887-898 | when every entry lists a move, the total number of moves is at least the number of positions |
| OpeningBook.TotalMoves | src/utils/openingBook.ts:889-892 | reference sum of the list lengths: zero for an empty book, the list's length for a one-entry book |
| OpeningBook.TotalMovesAppend | src/utils/openingBook.ts:889-892 | the sum over a book split in two is the sum of the two parts' sums, so it does not depend on the order of summation |
| OpeningBook.ReduceMovesIsTotal | src/utils/openingBook.ts:889-892 | the left-to-right reduce adding each list's length to the running sum, started at 0, is the sum of the list lengths |
| OpeningBook.GetBookStats | src/utils/openingBook.ts:887-898 | the number of positions is the number of entries and the number of moves is the sum of the list lengths |
| OpeningBook.TotalMovesAtLeastLength | src/utils/openingBook.ts:889-892 | when no list is empty, the total number of moves is at least the number of entries |
| OpeningBook.OpeningBookKeysDistinct | src/utils/openingBook.ts:47-850 | the modelled book entries have distinct positions |
| OpeningBook.OpeningBookMovesAreCoordinates | src/utils/openingBook.ts:47-850 | every modelled book move is written in coordinate form: four characters, an origin square followed by a destination square |
| OpeningBook.OpeningBookStats | src/utils/openingBook.ts:887-898 | the modelled book reports 10 positions and 44 moves |
| OpeningBook.OpeningBookWellFormed | src/utils/openingBook.ts:47-850 | the modelled book has distinct keys, no empty list and only coordinate moves |
| UseChessGame.SquareNameIsIndicesToSquare | src/hooks/useChessGame.ts:19-24 | the hook's square name of a click is the utilities' square for those indices, a valid square that converts back to the same indices |
| UseChessGame.PromotionClickIsPromotionRank | src/hooks/useChessGame.ts:42-46 | the click test for a promotion is a pawn of the side moving onto that side's promotion rank |
| UseChessGame.LegalTargets | src/hooks/useChessGame.ts:66-69 | with no selection there are no highlighted targets; with a selection, exactly the destinations of the legal moves from it |
| UseChessGame.StatusOf | src/hooks/useChessGame.ts:125-137 | each of the seven statuses holds exactly when its flag is the first set one in the order checkmate, draw, stalemate, repetition, insufficient material, check (to move when none is); on checkmate the side not to move wins, and check and to-move name the side to move |
| UseChessGame.ChessGameState.Status | src/hooks/useChessGame.ts:125-137 | the status of the hook's current position, as StatusOf states it |
| UseChessGame.SquareName | src/hooks/useChessGame.ts:19-24 | the file letter of the column followed by eight minus the row; SquareNameIsIndicesToSquare relates it to the utilities' conversion |
| UseChessGame.ChessGameState.constructor | src/hooks/useChessGame.ts:6-17 | a new game positioned at the given start tree with an empty history, nothing selected, the board shown unflipped and no promotion dialog |
| UseChessGame.ChessGameState.TryMove | src/hooks/useChessGame.ts:53-61 | a move that the library accepts updates board and history and clears the selection; a refused move changes nothing |
| UseChessGame.ChessGameState.OnSquareClick | src/hooks/useChessGame.ts:26-74 | a click on the selected square deselects; a legal-target click with a pawn reaching its last rank opens the promotion dialog; any other legal-target click plays the move; otherwise a piece of the side to move is selected with its targets, and anything else clears the selection |
| UseChessGame.ChessGameState.HandlePromotion | src/hooks/useChessGame.ts:92-106 | without a dialog nothing changes; with one the promotion move is tried and the dialog always closes |
| UseChessGame.ChessGameState.Reset | src/hooks/useChessGame.ts:76-82 | back to the start with an empty history and no selection; flip and the promotion dialog are kept |
| UseChessGame.ChessGameState.Undo | src/hooks/useChessGame.ts:84-90 | takes back the last move if there is one: the position becomes that move's before-position and the undo stack and history lose their last entry; with no move, position, stack and history are unchanged; the selection is cleared, flip and the promotion dialog are kept |
| UseChessGame.ChessGameState.SetFlip | src/hooks/useChessGame.ts:11 | sets the orientation and changes nothing else |
| MoveHistory.Pairs | src/components/chess/MoveHistory.tsx:25-32 | reference grouping two moves at a time from the front; FlattenPairs, PairsAt and SingletonPairs state its contents |
| MoveHistory.MovePairs | src/components/chess/MoveHistory.tsx:25-32 | the loop groups the history into consecutive pairs, a last singleton for an odd length |
| MoveHistory.FlattenPairs | src/components/chess/MoveHistory.tsx:25-32 | concatenating the pairs gives back the history: nothing lost, duplicated or reordered |
| MoveHistory.PairAt | src/components/chess/MoveHistory.tsx:26-30 | the i-th pair starts with move 2i and has a second move exactly when move 2i+1 exists |
| MoveHistory.PairsAt | src/components/chess/MoveHistory.tsx:25-32 | there are half the moves (rounded up) pairs, and the i-th holds moves 2i and 2i+1 |
| MoveHistory.SingletonPairs | src/components/chess/MoveHistory.tsx:25-32 | only the last pair can be a single move, and it is when the history has odd length |
| MoveHistory.RowOf | src/components/chess/MoveHistory.tsx:125-143 | table row i is numbered i+1, shows White's move, and shows Black's move or nothing |
| MoveHistory.PanelWidth | src/components/chess/MoveHistory.tsx:35 | the panel is at least 300 wide and at least four squares wide, and equals one of the two |
| ResponsiveSquareSize.CalculateSquareSize | src/hooks/useResponsiveSquareSize.ts:25-54 | mobile exactly below width 1024; the board of eight squares fits the available width and height, on desktop capped at the maximum square size, and the size is the largest whole number that does |
| ResponsiveSquareSize.SquareSizeMonotone | src/hooks/useResponsiveSquareSize.ts:25-54 | within one layout a larger window never gives smaller squares |
| ResponsiveSquareSize.LargeDesktopIsCapped | src/hooks/useResponsiveSquareSize.ts:41-53 | a desktop window with room for eight maximal squares gets exactly the maximal square size |
| RandomDraw.RandomIndex | src/utils/chessAI.ts:171 | the drawn index is in range and is the floor of draw times the length |

## Left out

- The initial position of `new Chess()` is a parameter (the `start` tree of `Rules.Game` and `UseChessGame.ChessGameState`); no contract ties it to the standard starting board or to White moving first.
- The rules library (chess.js) itself: move generation, check detection, FEN loading and SAN text are foreign code; the model takes them as the abstract game tree in `Rules`.
- The React components other than the move-history logic (board, squares, controls, mode selector, status, promotion dialog, piece images): presentation only.
- React state scheduling, effects and the resize listener: the hook's state is modelled as fields updated at once at the end of each handler.
- The memoised `status` in `useChessGame.ts` is modelled as a function of the current position; its dependency list, which can leave the string stale for a render, is not modelled.
- The exact status strings (with the "—" separator) are modelled as a `Status` datatype carrying the winner or side; the text is presentation.
- `exportPGN` and `importFEN`: both only delegate to the rules library (`pgn`, `load`) and to `alert`.
- `console.error` calls on a failed move: logging.
- UseChessGame.ChessGameState.TryMove: a move the library refuses is modelled as a `false` result instead of a caught exception.
- The `default` branch of `getAIMove`: unreachable, because the difficulty type has exactly three values.
- Floating point: `Math.random` draws are real parameters; the move-history heights, font sizes and the 12/16 padding of its table are presentation and not modelled.
- ChessAI.SortByScore: the comparator `b.score - a.score` of getBestMove's sort yields `NaN` when both scores are the same infinity; the ECMAScript standard's definition of `Array.prototype.sort` treats a comparator result of `NaN` as +0, so those pairs are ties, exactly as the model orders them. Infinite scores arise only in a tree with a position that has no moves and is not game over, which `ChessAI.Consistent` excludes.
- ChessAI.SortByScore: the in-place array sort is modelled on a value, as a stable insertion sort. The stability of `Array.prototype.sort` is guaranteed by the language standard (ECMAScript 2019 and later).
- `MAX_QUIESCENCE_DEPTH` and `CHECKMATE_SCORE` are declared but not used by the code; they appear only as constants.
- OpeningBook.GetBookStats: the `averageMovesPerPosition` field, `(totalMoves / positions).toFixed(1)`, is a floating-point division formatted as a string and is not modelled; only the two integer counts are.
- OpeningBook.OPENING_BOOK holds ten representative positions of the book's 137; the operations and lemmas are proved for every book, and the concrete lemmas only for these ten.
- OpeningBook.IsInBook: the `in` operator's look-up along the object's prototype chain (e.g. a key named `toString`) is not modelled; a position counts as in the book only when it is one of the entries' keys.
- ChessUtils.ParseInt: only a leading run of decimal digits is read, and a text that does not start with a digit gives no number (JavaScript's `NaN`); leading signs, whitespace and `0x` prefixes, which JavaScript's `parseInt` accepts, are not modelled.
- The subtraction of `LAYOUT` paddings and the `Math.floor` of negative sizes follow integer division rounded down; window sizes are integer parameters, since the browser window is I/O.
