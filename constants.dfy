/** Layout, padding and search constants of the application. */
module Constants {
  import opened ChessTypes

  // LAYOUT
  const MOBILE_BREAKPOINT: int := 70
  const MAX_SQUARE_SIZE: int := 110
  const AI_DELAY_MS: int := 300
  const MIN_HEIGHT_VS_BOT: int := 320
  const MIN_HEIGHT_VS_HUMAN: int := 400
  const DESKTOP_SIDE_PANEL_WIDTH: int := 500
  const DESKTOP_VERTICAL_MARGIN: int := 180
  const MOBILE_HORIZONTAL_PADDING: int := 60
  const MOBILE_VERTICAL_SPACE: int := 250
  const PADDING_SMALL: int := 8
  const PADDING_MEDIUM: int := 12
  const PADDING_LARGE: int := 16

  // AI_CONFIG
  const DEPTH_EASY: int := 1
  const DEPTH_MEDIUM: int := 2
  const DEPTH_HARD: int := 3
  const MAX_QUIESCENCE_DEPTH: int := 3
  const CHECKMATE_SCORE: int := 999999

  // COLORS
  const LIGHT_SQUARE: string := "#f0d9b5"
  const DARK_SQUARE: string := "#b58863"
  const LAST_MOVE_LIGHT: string := "#cdd26a"
  const LAST_MOVE_DARK: string := "#baca44"
  const SELECTED: string := "rgba(255, 255, 0, 0.4)"
  const LEGAL_MOVE: string := "rgba(0, 255, 0, 0.3)"

  /** The file letters a..h, index 0 being the a-file. */
  const FILES: seq<char> := ['a', 'b', 'c', 'd', 'e', 'f', 'g', 'h']

  /** The material table exported by the constants file. */
  function PieceValue(kind: PieceSymbol): (v: int)
    ensures v >= 100
    ensures v == 20000 <==> kind == King
  {
    match kind
    case Pawn => 100
    case Knight => 320
    case Bishop => 330
    case Rook => 500
    case Queen => 900
    case King => 20000
  }

  /** The configured search depth of each difficulty level. */
  function SearchDepth(d: Difficulty): (depth: int)
    ensures 1 <= depth <= 3
  {
    match d
    case Easy => DEPTH_EASY
    case Medium => DEPTH_MEDIUM
    case Hard => DEPTH_HARD
  }

  lemma DepthsIncrease()
    ensures SearchDepth(Easy) < SearchDepth(Medium) < SearchDepth(Hard)
  {
  }

  predicate IsMobileSize(squareSize: int) {
    squareSize < MOBILE_BREAKPOINT
  }

  function GetPadding(squareSize: int): (p: int)
    ensures p == PADDING_SMALL <==> squareSize < 70
    ensures p == PADDING_MEDIUM <==> squareSize >= 70
    ensures p != PADDING_LARGE
  {
    if IsMobileSize(squareSize) then PADDING_SMALL else PADDING_MEDIUM
  }
}
