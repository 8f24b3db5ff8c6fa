/**
 * The rules library as an abstract oracle. A position is a node of a finite game tree that
 * carries the board, the side to move, the library's status answers and the ordered list of
 * legal moves, each with the position it leads to. The library's game object is a class whose
 * state is the current node and the stack of positions left by the moves played so far.
 */
module Rules {
  import opened ChessTypes
  import opened ChessUtils

  type Row = r: seq<Option<Piece>> | |r| == 8 witness [None, None, None, None, None, None, None, None]

  const EMPTY_ROW: Row := [None, None, None, None, None, None, None, None]

  /** The 8x8 array of board(): row 0 is the eighth rank, column 0 the a-file. */
  type Board = b: seq<Row> | |b| == 8
    witness [EMPTY_ROW, EMPTY_ROW, EMPTY_ROW, EMPTY_ROW, EMPTY_ROW, EMPTY_ROW, EMPTY_ROW, EMPTY_ROW]

  /** What isGameOver, isCheckmate, isDraw, isStalemate, isThreefoldRepetition,
      isInsufficientMaterial and inCheck answer for a position. */
  datatype Flags = Flags(gameOver: bool, checkmate: bool, draw: bool, stalemate: bool,
                         threefold: bool, insufficient: bool, inCheck: bool)

  datatype GameTree = Node(board: Board, turn: Color, flags: Flags, children: seq<Child>)

  /** A legal move together with the position it leads to. */
  datatype Child = Child(move: Move, node: GameTree)

  /** A played move and the position it was played from, as the undo stack keeps them. */
  datatype Step = Step(before: GameTree, move: Move)

  /** moves({ verbose: true }): the legal moves in the library's enumeration order. */
  function MovesOf(t: GameTree): (ms: seq<Move>)
    ensures |ms| == |t.children|
    ensures forall i :: 0 <= i < |ms| ==> ms[i] == t.children[i].move
  {
    seq(|t.children|, i requires 0 <= i < |t.children| => t.children[i].move)
  }

  function FilterFrom(ms: seq<Move>, sq: string): (r: seq<Move>)
    ensures forall m :: m in r <==> m in ms && m.from == sq
    ensures |r| <= |ms|
  {
    if ms == [] then []
    else (if ms[0].from == sq then [ms[0]] else []) + FilterFrom(ms[1..], sq)
  }

  /** moves({ square: sq, verbose: true }): the legal moves that start on sq. */
  function MovesFrom(t: GameTree, sq: string): seq<Move> {
    FilterFrom(MovesOf(t), sq)
  }

  function Destinations(ms: seq<Move>): (ds: seq<string>)
    ensures |ds| == |ms|
    ensures forall i :: 0 <= i < |ms| ==> ds[i] == ms[i].to
  {
    seq(|ms|, i requires 0 <= i < |ms| => ms[i].to)
  }

  /** get(sq): the piece on a square. */
  function PieceAt(t: GameTree, sq: Square): Option<Piece> {
    var (r, f) := SquareToIndices(sq);
    t.board[r][f]
  }

  /** The library's rule for an object move {from, to, promotion}: a legal move matches when
      origin and destination agree and, if it promotes, it promotes to the requested piece. */
  predicate Matches(m: Move, from: string, to: string, promotion: Option<PromotionPiece>) {
    m.from == from && m.to == to && (m.promotion.None? || m.promotion == promotion)
  }

  /** Index of the first legal move matching an object move, if any. */
  function FindMove(cs: seq<Child>, from: string, to: string, promotion: Option<PromotionPiece>): (k: Option<nat>)
    ensures k.Some? ==> k.value < |cs| && Matches(cs[k.value].move, from, to, promotion)
    ensures k.Some? ==> forall j :: 0 <= j < k.value ==> !Matches(cs[j].move, from, to, promotion)
    ensures k.None? <==> forall j :: 0 <= j < |cs| ==> !Matches(cs[j].move, from, to, promotion)
  {
    if cs == [] then None
    else if Matches(cs[0].move, from, to, promotion) then Some(0)
    else
      var k := FindMove(cs[1..], from, to, promotion);
      if k.None? then None else Some(k.value + 1)
  }

  function MovesOfSteps(steps: seq<Step>): (h: seq<Move>)
    ensures |h| == |steps|
    ensures forall i :: 0 <= i < |steps| ==> h[i] == steps[i].move
  {
    seq(|steps|, i requires 0 <= i < |steps| => steps[i].move)
  }

  /** A game object of the rules library, positioned on one node of the tree. */
  class Game {
    /** The position new Chess() and reset() start from. */
    const start: GameTree
    var current: GameTree
    var past: seq<Step>

    constructor (start: GameTree)
      ensures this.start == start && current == start && past == []
    {
      this.start := start;
      current := start;
      past := [];
    }

    function Moves(): seq<Move>
      reads this
    {
      MovesOf(current)
    }

    function Turn(): Color
      reads this
    {
      current.turn
    }

    function Board(): Board
      reads this
    {
      current.board
    }

    /** history({ verbose: true }): the moves played since the start, oldest first. */
    function History(): seq<Move>
      reads this
    {
      MovesOfSteps(past)
    }

    /** move(m) for the i-th move of the current enumeration. */
    method Play(i: nat)
      requires i < |current.children|
      modifies this
      ensures current == old(current).children[i].node
      ensures past == old(past) + [Step(old(current), old(current).children[i].move)]
      ensures History() == old(History()) + [old(Moves())[i]]
    {
      past := past + [Step(current, current.children[i].move)];
      current := current.children[i].node;
    }

    /** move({ from, to, promotion }): plays the first matching legal move; ok is false where the
        library throws, and then nothing changes. */
    method MoveFromTo(from: string, to: string, promotion: Option<PromotionPiece>) returns (ok: bool)
      modifies this
      ensures var k := FindMove(old(current).children, from, to, promotion);
        && ok == k.Some?
        && (ok ==> current == old(current).children[k.value].node
                   && past == old(past) + [Step(old(current), old(current).children[k.value].move)])
        && (!ok ==> current == old(current) && past == old(past))
    {
      var k := FindMove(current.children, from, to, promotion);
      if k.Some? {
        past := past + [Step(current, current.children[k.value].move)];
        current := current.children[k.value].node;
        ok := true;
      } else {
        ok := false;
      }
    }

    /** undo(): takes back the last move; without one it does nothing. */
    method Undo()
      modifies this
      ensures old(past) == [] ==> current == old(current) && past == []
      ensures old(past) != [] ==>
        current == old(past)[|old(past)| - 1].before && past == old(past)[..|old(past)| - 1]
    {
      if past != [] {
        current := past[|past| - 1].before;
        past := past[..|past| - 1];
      }
    }

    /** reset(): back to the starting position with an empty history. */
    method Reset()
      modifies this
      ensures current == start && past == []
    {
      current := start;
      past := [];
    }
  }
}
