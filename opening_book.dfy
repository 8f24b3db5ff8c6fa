/**
 * The opening book: FEN positions mapped to candidate moves in coordinate notation
 * ("e2e4"), a random pick among them, a membership test and summary counts. The table
 * here is a representative part of the full one, in the same key order.
 */
module OpeningBook {
  import opened ChessTypes
  import opened ChessUtils
  import opened RandomDraw

  datatype BookEntry = BookEntry(fen: string, moves: seq<string>)

  /** The book as its entries in key order; a key appears at most once. */
  type Book = seq<BookEntry>

  const OPENING_BOOK: Book := [
    // src/utils/openingBook.ts:51
    BookEntry("rnbqkbnr/pppppppp/8/8/8/8/PPPPPPPP/RNBQKBNR w KQkq - 0 1", ["e2e4", "d2d4", "c2c4", "g1f3", "c2c3"]),
    // src/utils/openingBook.ts:60
    BookEntry("rnbqkbnr/pppppppp/8/8/4P3/8/PPPP1PPP/RNBQKBNR b KQkq - 0 1", ["e7e5", "c7c5", "e7e6", "c7c6", "d7d5", "g8f6", "d7d6"]),
    // src/utils/openingBook.ts:69
    BookEntry("rnbqkbnr/pppp1ppp/8/4p3/4P3/8/PPPP1PPP/RNBQKBNR w KQkq e6 0 2", ["g1f3", "f2f4", "b1c3", "f1c4", "d2d4"]),
    // src/utils/openingBook.ts:74
    BookEntry("rnbqkbnr/pppp1ppp/8/4p3/4P3/5N2/PPPP1PPP/RNBQKB1R b KQkq - 1 2", ["b8c6", "g8f6", "d7d6", "f8c5"]),
    // src/utils/openingBook.ts:79
    BookEntry("r1bqkbnr/pppp1ppp/2n5/4p3/4P3/5N2/PPPP1PPP/RNBQKB1R w KQkq - 2 3", ["f1b5", "f1c4", "d2d4", "b1c3"]),
    // src/utils/openingBook.ts:85
    BookEntry("r1bqkbnr/pppp1ppp/2n5/1B2p3/4P3/5N2/PPPP1PPP/RNBQK2R b KQkq - 3 3", ["a7a6", "g8f6", "f8c5", "f7f5"]),
    // src/utils/openingBook.ts:221
    BookEntry("rnbqkbnr/pppp1ppp/4p3/8/4P3/8/PPPP1PPP/RNBQKBNR w KQkq - 0 2", ["d2d4", "d2d3", "g1f3", "b1c3"]),
    // src/utils/openingBook.ts:399
    BookEntry("rnbqkbnr/pppppppp/8/8/2P5/8/PP1PPPPP/RNBQKBNR b KQkq - 0 1", ["e7e5", "g8f6", "c7c5", "e7e6", "c7c6"]),
    // src/utils/openingBook.ts:842
    BookEntry("r1bqkb1r/p1pp1ppp/2p2n2/4P3/8/8/PPP2PPP/RNBQKB1R b KQkq - 0 6", ["d8e7", "f6d5", "f6e4"]),
    // src/utils/openingBook.ts:847
    BookEntry("r1bqk2r/pppp1ppp/2n2n2/8/1b1NP3/2N5/PPP2PPP/R1BQKB1R w KQkq - 3 6", ["d4c6", "f1d3", "c1g5"])
  ]

  predicate DistinctKeys(book: Book) {
    forall i, j :: 0 <= i < j < |book| ==> book[i].fen != book[j].fen
  }

  /** Object.keys(OPENING_BOOK), as a set. */
  function Keys(book: Book): (ks: set<string>)
    ensures forall k :: k in ks <==> exists i :: 0 <= i < |book| && book[i].fen == k
  {
    if book == [] then {}
    else
      var ks := Keys(book[1..]);
      assert forall i :: 1 <= i < |book| ==> book[i] == book[1..][i - 1];
      assert forall k :: k in ks ==> exists i :: 0 <= i < |book| && book[i].fen == k by {
        forall k | k in ks ensures exists i :: 0 <= i < |book| && book[i].fen == k {
          var j :| 0 <= j < |book[1..]| && book[1..][j].fen == k;
          assert book[j + 1].fen == k;
        }
      }
      {book[0].fen} + ks
  }

  /** Where fen is a key, its entry. */
  function IndexOf(book: Book, fen: string): (k: Option<nat>)
    ensures k.None? <==> fen !in Keys(book)
    ensures k.Some? ==> k.value < |book| && book[k.value].fen == fen
  {
    if book == [] then None
    else if book[0].fen == fen then Some(0)
    else
      var k := IndexOf(book[1..], fen);
      assert forall i :: 1 <= i < |book| ==> book[i] == book[1..][i - 1];
      if k.None? then None else Some(k.value + 1)
  }

  /** OPENING_BOOK[fen]: undefined (None) when fen is not a key. */
  function Lookup(book: Book, fen: string): (r: Option<seq<string>>)
    ensures r.None? <==> fen !in Keys(book)
    ensures DistinctKeys(book) ==> forall i :: 0 <= i < |book| && book[i].fen == fen ==> r == Some(book[i].moves)
  {
    match IndexOf(book, fen)
    case None => None
    case Some(k) => Some(book[k].moves)
  }

  /** getBookMove: null unless fen is a key with a non-empty list, otherwise the move at floor(draw * n). */
  function GetBookMove(book: Book, fen: string, draw: real): (m: Option<string>)
    requires IsDraw(draw)
    ensures m.None? <==> Lookup(book, fen).None? || Lookup(book, fen).value == []
    ensures m.Some? ==> m.value in Lookup(book, fen).value
    ensures m.Some? ==> m.value == Lookup(book, fen).value[RandomIndex(draw, |Lookup(book, fen).value|)]
  {
    var bookMoves := Lookup(book, fen);
    if bookMoves.Some? && |bookMoves.value| > 0 then
      Some(bookMoves.value[RandomIndex(draw, |bookMoves.value|)])
    else
      None
  }

  /** isInBook: fen is a key. */
  function IsInBook(book: Book, fen: string): (b: bool)
    ensures b <==> exists i :: 0 <= i < |book| && book[i].fen == fen
  {
    fen in Keys(book)
  }

  /** The integer fields of getBookStats. */
  datatype BookStats = BookStats(totalPositions: int, totalMoves: int)

  /** The sum of the lengths of the move lists. */
  function TotalMoves(book: Book): (n: nat)
    ensures book == [] ==> n == 0
    ensures |book| == 1 ==> n == |book[0].moves|
  {
    if book == [] then 0 else |book[0].moves| + TotalMoves(book[1..])
  }

  /** The sum is additive over a split of the book, so the order of summation does not matter. */
  lemma {:induction false} TotalMovesAppend(a: Book, b: Book)
    ensures TotalMoves(a + b) == TotalMoves(a) + TotalMoves(b)
  {
    if a == [] {
      assert a + b == b;
    } else {
      assert (a + b)[0] == a[0] && (a + b)[1..] == a[1..] + b;
      TotalMovesAppend(a[1..], b);
    }
  }

  /** The reduce of getBookStats: left to right, adding each list's length to the running sum. */
  function ReduceMoves(sum: nat, book: Book): nat
    decreases |book|
  {
    if book == [] then sum else ReduceMoves(sum + |book[0].moves|, book[1..])
  }

  /** The left-to-right reduce started at 0 computes the sum of the list lengths. */
  lemma {:induction false} ReduceMovesIsTotal(sum: nat, book: Book)
    ensures ReduceMoves(sum, book) == sum + TotalMoves(book)
    decreases |book|
  {
    if book != [] {
      ReduceMovesIsTotal(sum + |book[0].moves|, book[1..]);
    }
  }

  /** getBookStats: the number of entries and the reduce over their move lists, which is the sum of
      the list lengths. */
  function GetBookStats(book: Book): (st: BookStats)
    ensures st.totalPositions == |book|
    ensures st.totalMoves == TotalMoves(book)
  {
    ReduceMovesIsTotal(0, book);
    BookStats(|book|, ReduceMoves(0, book))
  }


  /** With distinct keys, the positions counted are the keys of the book. */
  lemma {:induction false} KeysCount(book: Book)
    requires DistinctKeys(book)
    ensures |Keys(book)| == |book|
    ensures GetBookStats(book).totalPositions == |Keys(book)|
  {
    if book != [] {
      var tail := book[1..];
      assert forall i :: 0 <= i < |tail| ==> tail[i] == book[i + 1];
      KeysCount(tail);
      assert book[0].fen !in Keys(tail);
    }
  }

  predicate NonEmptyLists(book: Book) {
    forall i :: 0 <= i < |book| ==> book[i].moves != []
  }

  lemma {:induction false} TotalMovesAtLeastLength(book: Book)
    requires NonEmptyLists(book)
    ensures TotalMoves(book) >= |book|
  {
    if book != [] {
      assert NonEmptyLists(book[1..]) by {
        forall i | 0 <= i < |book[1..]| ensures book[1..][i].moves != [] {
          assert book[1..][i] == book[i + 1];
        }
      }
      TotalMovesAtLeastLength(book[1..]);
    }
  }

  /** Every list has a move, so there are at least as many moves as positions. */
  lemma MovesAtLeastPositions(book: Book)
    requires NonEmptyLists(book)
    ensures GetBookStats(book).totalMoves >= GetBookStats(book).totalPositions
  {
    TotalMovesAtLeastLength(book);
  }

  /** A book move: from-square then to-square, four characters in all. */
  predicate IsCoordinateMove(m: string) {
    |m| == 4 && IsValidSquare(m[..2]) && IsValidSquare(m[2..])
  }

  /** The shape every book satisfies: distinct keys and non-empty lists of coordinate moves. */
  predicate WellFormed(book: Book) {
    && DistinctKeys(book)
    && NonEmptyLists(book)
    && forall i, j :: 0 <= i < |book| && 0 <= j < |book[i].moves| ==> IsCoordinateMove(book[i].moves[j])
  }

  /** In a well-formed book, getBookMove answers for exactly the keys, with a coordinate move. */
  lemma BookMoveIffInBook(book: Book, fen: string, draw: real)
    requires WellFormed(book) && IsDraw(draw)
    ensures GetBookMove(book, fen, draw).Some? <==> IsInBook(book, fen)
    ensures GetBookMove(book, fen, draw).Some? ==> IsCoordinateMove(GetBookMove(book, fen, draw).value)
  {
    if IsInBook(book, fen) {
      var k := IndexOf(book, fen).value;
      assert Lookup(book, fen) == Some(book[k].moves);
    }
  }

  /** A non-null book move always comes from a position in the book. */
  lemma BookMoveImpliesInBook(book: Book, fen: string, draw: real)
    requires IsDraw(draw)
    ensures GetBookMove(book, fen, draw).Some? ==> IsInBook(book, fen)
  {
  }

  lemma OpeningBookKeysDistinct()
    ensures DistinctKeys(OPENING_BOOK)
  {
  }

  lemma OpeningBookMovesAreCoordinates()
    ensures forall i, j :: 0 <= i < |OPENING_BOOK| && 0 <= j < |OPENING_BOOK[i].moves| ==>
      IsCoordinateMove(OPENING_BOOK[i].moves[j])
  {
  }

  /** The counts getBookStats reports for the table. */
  lemma OpeningBookStats()
    ensures GetBookStats(OPENING_BOOK) == BookStats(10, 44)
  {
  }

  /** The table satisfies the shape. */
  lemma OpeningBookWellFormed()
    ensures WellFormed(OPENING_BOOK)
  {
    OpeningBookKeysDistinct();
    OpeningBookMovesAreCoordinates();
    assert NonEmptyLists(OPENING_BOOK);
  }
}
