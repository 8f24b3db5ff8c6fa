/** Square notation, square colouring, colour helpers and FEN field splitting. */
module ChessUtils {
  import opened ChessTypes
  import opened Constants

  /** A square name: a file letter a..h followed by a rank digit 1..8. */
  predicate IsValidSquare(s: string) {
    |s| == 2 && 'a' <= s[0] <= 'h' && '1' <= s[1] <= '8'
  }

  /** The rules library's square type: only valid square names inhabit it. */
  type Square = s: string | IsValidSquare(s) witness "a1"

  /** Board-array indices of a square: rank 0 is the eighth rank, file 0 the a-file. */
  function SquareToIndices(sq: Square): (rf: (int, int))
    ensures 0 <= rf.0 < 8 && 0 <= rf.1 < 8
    ensures rf.0 == 8 - (sq[1] as int - '0' as int)
    ensures FILES[rf.1] == sq[0]
  {
    var file := sq[0] as int - 'a' as int;
    var rank := 8 - (sq[1] as int - '0' as int);
    (rank, file)
  }

  function IndicesToSquare(rank: int, file: int): (sq: Square)
    requires 0 <= rank < 8 && 0 <= file < 8
    ensures sq[0] == FILES[file]
    ensures sq[1] as int - '0' as int == 8 - rank
  {
    [FILES[file], ('0' as int + 8 - rank) as char]
  }

  lemma SquareRoundTrip(sq: Square)
    ensures var (r, f) := SquareToIndices(sq); IndicesToSquare(r, f) == sq
  {
    var (r, f) := SquareToIndices(sq);
    var back := IndicesToSquare(r, f);
    assert back[0] == sq[0] && back[1] == sq[1];
  }

  lemma IndicesRoundTrip(rank: int, file: int)
    requires 0 <= rank < 8 && 0 <= file < 8
    ensures SquareToIndices(IndicesToSquare(rank, file)) == (rank, file)
  {
  }

  /** The worked examples of the conversion's documentation. */
  lemma ConversionExamples()
    ensures SquareToIndices("e4") == (4, 4) && SquareToIndices("a1") == (7, 0)
    ensures IndicesToSquare(4, 4) == "e4" && IndicesToSquare(7, 0) == "a1"
  {
  }

  /** Dark exactly when rank index plus file index is odd (the a1 corner is dark, the a8 corner light). */
  predicate IsDarkSquare(rank: int, file: int) {
    (rank + file) % 2 != 0
  }

  lemma DarkSquareParity(rank: int, file: int)
    ensures IsDarkSquare(rank, file) <==> !IsDarkSquare(rank, file + 1)
    ensures IsDarkSquare(rank, file) <==> !IsDarkSquare(rank + 1, file)
    ensures IsDarkSquare(7, 0) && !IsDarkSquare(7, 7) && !IsDarkSquare(0, 0) && IsDarkSquare(0, 1)
  {
  }

  /** Background colour of a square: last move, then selection, then legal-move marker, then the plain colour. */
  function GetSquareColor(isDark: bool, isLastMove: bool, isSelected: bool, isLegalMove: bool): (c: string)
    ensures isLastMove ==> c == (if isDark then LAST_MOVE_DARK else LAST_MOVE_LIGHT)
    ensures !isLastMove && isSelected ==> c == SELECTED
    ensures !isLastMove && !isSelected && isLegalMove ==> c == LEGAL_MOVE
    ensures !isLastMove && !isSelected && !isLegalMove ==> c == (if isDark then DARK_SQUARE else LIGHT_SQUARE)
  {
    if isLastMove then (if isDark then LAST_MOVE_DARK else LAST_MOVE_LIGHT)
    else if isSelected then SELECTED
    else if isLegalMove then LEGAL_MOVE
    else if isDark then DARK_SQUARE
    else LIGHT_SQUARE
  }

  lemma ValidSquareExamples()
    ensures IsValidSquare("e4") && !IsValidSquare("z9") && !IsValidSquare("e")
  {
  }

  /** Every index pair names a valid square and every valid square is named by one. */
  lemma ValidSquaresAreTheBoard(s: string)
    ensures IsValidSquare(s) <==> exists r, f :: 0 <= r < 8 && 0 <= f < 8 && s == IndicesToSquare(r, f)
  {
    if IsValidSquare(s) {
      var (r, f) := SquareToIndices(s);
      SquareRoundTrip(s);
      assert s == IndicesToSquare(r, f);
    }
  }

  function GetOppositeColor(c: Color): (o: Color)
    ensures o != c
  {
    if c == White then Black else White
  }

  lemma OppositeIsInvolution(c: Color)
    ensures GetOppositeColor(GetOppositeColor(c)) == c
  {
  }

  function GetColorName(c: Color): (name: string)
    ensures c == White ==> name == "White"
    ensures c == Black ==> name == "Black"
  {
    if c == White then "White" else "Black"
  }

  predicate IsPromotionRank(sq: Square, c: Color) {
    (c == White && sq[1] == '8') || (c == Black && sq[1] == '1')
  }

  /** The promotion rank is the far edge: index 0 for White, index 7 for Black. */
  lemma PromotionRankIsFarEdge(sq: Square, c: Color)
    ensures IsPromotionRank(sq, c) <==> SquareToIndices(sq).0 == (if c == White then 0 else 7)
  {
  }

  // ---------------------------------------------------------------------------
  // Splitting a FEN record into fields (section 16.1 of the PGN standard)

  function FirstIndexOf(s: string, c: char): (i: nat)
    requires c in s
    ensures i < |s| && s[i] == c && c !in s[..i]
  {
    if s[0] == c then 0 else 1 + FirstIndexOf(s[1..], c)
  }

  /** Joins parts with one separator between neighbours; the inverse of Split. */
  function Join(parts: seq<string>, sep: char): string {
    if |parts| == 0 then ""
    else if |parts| == 1 then parts[0]
    else parts[0] + [sep] + Join(parts[1..], sep)
  }

  /** String.prototype.split on a one-character separator: every separator ends a part, so consecutive separators give empty parts. */
  function Split(s: string, sep: char): (parts: seq<string>)
    ensures |parts| >= 1
    ensures forall i :: 0 <= i < |parts| ==> sep !in parts[i]
    ensures Join(parts, sep) == s
    decreases |s|
  {
    if sep !in s then [s]
    else
      var i := FirstIndexOf(s, sep);
      var rest := Split(s[i + 1..], sep);
      assert s == s[..i] + [sep] + s[i + 1..];
      [s[..i]] + rest
  }

  /** The first separator of a + [sep] + b is the one after a, when a has none. */
  lemma FirstIndexAfterPart(a: string, b: string, sep: char)
    requires sep !in a
    ensures sep in a + [sep] + b
    ensures FirstIndexOf(a + [sep] + b, sep) == |a|
  {
    var s := a + [sep] + b;
    assert s[|a|] == sep;
    assert s[..|a|] == a;
  }

  lemma SplitCons(a: string, b: string, sep: char)
    requires sep !in a
    ensures Split(a + [sep] + b, sep) == [a] + Split(b, sep)
  {
    var s := a + [sep] + b;
    FirstIndexAfterPart(a, b, sep);
    assert s[..|a|] == a;
    assert s[|a| + 1..] == b;
  }

  lemma {:induction false} SplitJoin(parts: seq<string>, sep: char)
    requires |parts| >= 1
    requires forall i :: 0 <= i < |parts| ==> sep !in parts[i]
    ensures Split(Join(parts, sep), sep) == parts
    decreases |parts|
  {
    if |parts| > 1 {
      SplitJoin(parts[1..], sep);
      SplitCons(parts[0], Join(parts[1..], sep), sep);
      assert parts == [parts[0]] + parts[1..];
    }
  }

  // ---------------------------------------------------------------------------
  // parseInt on decimal digits

  predicate IsDigit(c: char) { '0' <= c <= '9' }

  function DigitValue(c: char): (d: nat)
    requires IsDigit(c)
    ensures d < 10
  {
    c as int - '0' as int
  }

  /** The longest prefix of s made of decimal digits. */
  function LeadingDigits(s: string): (d: string)
    ensures d <= s
    ensures forall i :: 0 <= i < |d| ==> IsDigit(d[i])
    ensures |d| < |s| ==> !IsDigit(s[|d|])
  {
    if |s| == 0 || !IsDigit(s[0]) then ""
    else [s[0]] + LeadingDigits(s[1..])
  }

  function DigitsValue(d: string): nat
    requires forall i :: 0 <= i < |d| ==> IsDigit(d[i])
  {
    if |d| == 0 then 0 else 10 * DigitsValue(d[..|d| - 1]) + DigitValue(d[|d| - 1])
  }

  /** parseInt: the value of the leading run of digits, or None (NaN) when there is none. */
  function ParseInt(s: string): (n: Option<int>)
    ensures n.None? <==> (|s| == 0 || !IsDigit(s[0]))
    ensures n.Some? ==> n.value >= 0
  {
    var d := LeadingDigits(s);
    if |d| == 0 then None else Some(DigitsValue(d))
  }

  /** Decimal rendering of a natural number, without leading zeros. */
  function NatToString(n: nat): (s: string)
    ensures |s| >= 1
    ensures forall i :: 0 <= i < |s| ==> IsDigit(s[i])
  {
    if n < 10 then [('0' as int + n) as char]
    else NatToString(n / 10) + [('0' as int + n % 10) as char]
  }

  lemma {:induction false} DigitsValueOfNatToString(n: nat)
    ensures DigitsValue(NatToString(n)) == n
  {
    if n >= 10 {
      var s := NatToString(n);
      assert s[..|s| - 1] == NatToString(n / 10);
      DigitsValueOfNatToString(n / 10);
    }
  }

  lemma {:induction false} LeadingDigitsOfDigits(s: string)
    requires forall i :: 0 <= i < |s| ==> IsDigit(s[i])
    ensures LeadingDigits(s) == s
    decreases |s|
  {
    if |s| > 0 {
      LeadingDigitsOfDigits(s[1..]);
    }
  }

  lemma DigitsHaveNoSpace(s: string)
    requires forall i :: 0 <= i < |s| ==> IsDigit(s[i])
    ensures ' ' !in s
  {
  }

  lemma ParseIntRoundTrip(n: nat)
    ensures ParseInt(NatToString(n)) == Some(n)
  {
    LeadingDigitsOfDigits(NatToString(n));
    DigitsValueOfNatToString(n);
  }

  datatype FenFields = FenFields(position: string, turn: Option<string>, castling: Option<string>,
                                 enPassant: Option<string>, halfMoves: Option<int>, fullMoves: Option<int>)

  /** parts[i], or None where the array has no element i. */
  function FieldAt(parts: seq<string>, i: nat): Option<string> {
    if i < |parts| then Some(parts[i]) else None
  }

  /** The `field || fallback` idiom: absent and empty fields give way to the fallback. */
  function OrElse(field: Option<string>, fallback: string): string {
    if field.None? || field.value == "" then fallback else field.value
  }

  /** parseFEN: the space-separated fields, absent ones as None, the counters read as numbers with
      0 and 1 in place of a missing or empty field. */
  function ParseFEN(fen: string): (f: FenFields)
    ensures ' ' !in f.position
    ensures ' ' !in fen ==> f == FenFields(fen, None, None, None, Some(0), Some(1))
  {
    ParseIntOfDefaults();
    var parts := Split(fen, ' ');
    FenFields(parts[0], FieldAt(parts, 1), FieldAt(parts, 2), FieldAt(parts, 3),
              ParseInt(OrElse(FieldAt(parts, 4), "0")), ParseInt(OrElse(FieldAt(parts, 5), "1")))
  }

  predicate IsFenField(s: string) { ' ' !in s }

  /** A six-field record comes back field by field, the counters as numbers. */
  lemma ParseFENRoundTrip(position: string, turn: string, castling: string, enPassant: string, half: nat, full: nat)
    requires IsFenField(position) && IsFenField(turn) && IsFenField(castling) && IsFenField(enPassant)
    ensures ParseFEN(Join([position, turn, castling, enPassant, NatToString(half), NatToString(full)], ' '))
         == FenFields(position, Some(turn), Some(castling), Some(enPassant), Some(half), Some(full))
  {
    var parts := [position, turn, castling, enPassant, NatToString(half), NatToString(full)];
    DigitsHaveNoSpace(NatToString(half));
    DigitsHaveNoSpace(NatToString(full));
    SplitJoin(parts, ' ');
    assert NatToString(half) != "" && NatToString(full) != "";
    ParseIntRoundTrip(half);
    ParseIntRoundTrip(full);
  }

  /** A record without the two counters reads as half-move clock 0 and move number 1. */
  lemma ParseFENDefaults(position: string, turn: string, castling: string, enPassant: string)
    requires IsFenField(position) && IsFenField(turn) && IsFenField(castling) && IsFenField(enPassant)
    ensures ParseFEN(Join([position, turn, castling, enPassant], ' '))
         == FenFields(position, Some(turn), Some(castling), Some(enPassant), Some(0), Some(1))
  {
    var parts := [position, turn, castling, enPassant];
    SplitJoin(parts, ' ');
    assert FieldAt(parts, 4).None? && FieldAt(parts, 5).None?;
    ParseIntOfDefaults();
  }

  /** Counter fields that are present but empty give way to the same defaults (the `||` idiom). */
  lemma ParseFENEmptyCounters(position: string, turn: string, castling: string, enPassant: string)
    requires IsFenField(position) && IsFenField(turn) && IsFenField(castling) && IsFenField(enPassant)
    ensures ParseFEN(Join([position, turn, castling, enPassant, "", ""], ' '))
         == FenFields(position, Some(turn), Some(castling), Some(enPassant), Some(0), Some(1))
  {
    var parts := [position, turn, castling, enPassant, "", ""];
    SplitJoin(parts, ' ');
    ParseIntOfDefaults();
  }

  lemma ParseIntOfDefaults()
    ensures ParseInt("0") == Some(0) && ParseInt("1") == Some(1)
  {
    ParseIntRoundTrip(0);
    ParseIntRoundTrip(1);
  }

  /** An empty string is one empty field: no turn and the default counters. */
  lemma ParseFENOfEmpty()
    ensures ParseFEN("") == FenFields("", None, None, None, Some(0), Some(1))
  {
    assert Split("", ' ') == [""];
    ParseIntOfDefaults();
  }
}
