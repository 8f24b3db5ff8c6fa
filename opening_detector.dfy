/**
 * Opening names for display: the longest database line that is a prefix of the game's moves,
 * with generic fallback names, and a shortened form of the name.
 */
module OpeningDetector {
  import opened ChessTypes

  /** An opening line in SAN, with its display name. */
  datatype Opening = Opening(name: string, moves: seq<string>)

  const OPENING_DATABASE: seq<Opening> := [
    // King's Pawn Openings (1.e4)
    Opening("Ruy Lopez", ["e4", "e5", "Nf3", "Nc6", "Bb5"]),
    Opening("Ruy Lopez: Berlin Defense", ["e4", "e5", "Nf3", "Nc6", "Bb5", "Nf6"]),
    Opening("Ruy Lopez: Morphy Defense", ["e4", "e5", "Nf3", "Nc6", "Bb5", "a6"]),
    Opening("Ruy Lopez: Exchange Variation", ["e4", "e5", "Nf3", "Nc6", "Bb5", "a6", "Bxc6"]),
    Opening("Ruy Lopez: Closed", ["e4", "e5", "Nf3", "Nc6", "Bb5", "a6", "Ba4", "Nf6", "O-O", "Be7"]),
    Opening("Ruy Lopez: Marshall Attack", ["e4", "e5", "Nf3", "Nc6", "Bb5", "a6", "Ba4", "Nf6", "O-O", "Be7", "Re1", "b5", "Bb3", "O-O", "c3", "d5"]),
    Opening("Italian Game", ["e4", "e5", "Nf3", "Nc6", "Bc4"]),
    Opening("Giuoco Piano", ["e4", "e5", "Nf3", "Nc6", "Bc4", "Bc5"]),
    Opening("Italian Game: Two Knights Defense", ["e4", "e5", "Nf3", "Nc6", "Bc4", "Nf6"]),
    Opening("Fried Liver Attack", ["e4", "e5", "Nf3", "Nc6", "Bc4", "Nf6", "Ng5", "d5", "exd5", "Nxd5", "Nxf7"]),
    Opening("Evans Gambit", ["e4", "e5", "Nf3", "Nc6", "Bc4", "Bc5", "b4"]),
    Opening("Scotch Game", ["e4", "e5", "Nf3", "Nc6", "d4"]),
    Opening("Scotch Game", ["e4", "e5", "Nf3", "Nc6", "d4", "exd4"]),
    Opening("Petrov's Defense", ["e4", "e5", "Nf3", "Nf6"]),
    Opening("King's Gambit", ["e4", "e5", "f4"]),
    Opening("King's Gambit Accepted", ["e4", "e5", "f4", "exf4"]),
    Opening("King's Gambit Declined", ["e4", "e5", "f4", "Bc5"]),
    Opening("Sicilian Defense", ["e4", "c5"]),
    Opening("Sicilian: Open", ["e4", "c5", "Nf3", "d6", "d4"]),
    Opening("Sicilian: Najdorf", ["e4", "c5", "Nf3", "d6", "d4", "cxd4", "Nxd4", "Nf6", "Nc3", "a6"]),
    Opening("Sicilian: Dragon", ["e4", "c5", "Nf3", "d6", "d4", "cxd4", "Nxd4", "Nf6", "Nc3", "g6"]),
    Opening("Sicilian: Sveshnikov", ["e4", "c5", "Nf3", "Nc6", "d4", "cxd4", "Nxd4", "Nf6", "Nc3", "e5"]),
    Opening("Sicilian: Accelerated Dragon", ["e4", "c5", "Nf3", "Nc6", "d4", "cxd4", "Nxd4", "g6"]),
    Opening("Sicilian: Closed", ["e4", "c5", "Nc3"]),
    Opening("Sicilian: Alapin", ["e4", "c5", "c3"]),
    Opening("French Defense", ["e4", "e6"]),
    Opening("French Defense", ["e4", "e6", "d4", "d5"]),
    Opening("French: Winawer", ["e4", "e6", "d4", "d5", "Nc3", "Bb4"]),
    Opening("French: Tarrasch", ["e4", "e6", "d4", "d5", "Nd2"]),
    Opening("French: Advance", ["e4", "e6", "d4", "d5", "e5"]),
    Opening("Caro-Kann Defense", ["e4", "c6"]),
    Opening("Caro-Kann", ["e4", "c6", "d4", "d5"]),
    Opening("Caro-Kann: Classical", ["e4", "c6", "d4", "d5", "Nc3", "dxe4", "Nxe4"]),
    Opening("Caro-Kann: Advance", ["e4", "c6", "d4", "d5", "e5"]),
    Opening("Caro-Kann: Panov Attack", ["e4", "c6", "d4", "d5", "exd5", "cxd5", "c4"]),
    Opening("Pirc Defense", ["e4", "d6"]),
    Opening("Pirc Defense", ["e4", "d6", "d4", "Nf6", "Nc3", "g6"]),
    Opening("Modern Defense", ["e4", "g6"]),
    Opening("Scandinavian Defense", ["e4", "d5"]),
    Opening("Alekhine's Defense", ["e4", "Nf6"]),
    // Queen's Pawn Openings (1.d4)
    Opening("Queen's Gambit", ["d4", "d5", "c4"]),
    Opening("Queen's Gambit Declined", ["d4", "d5", "c4", "e6"]),
    Opening("Queen's Gambit Accepted", ["d4", "d5", "c4", "dxc4"]),
    Opening("Slav Defense", ["d4", "d5", "c4", "c6"]),
    Opening("Semi-Slav Defense", ["d4", "d5", "c4", "c6", "Nf3", "Nf6", "Nc3", "e6"]),
    Opening("King's Indian Defense", ["d4", "Nf6", "c4", "g6"]),
    Opening("King's Indian", ["d4", "Nf6", "c4", "g6", "Nc3", "Bg7", "e4", "d6"]),
    Opening("Grunfeld Defense", ["d4", "Nf6", "c4", "g6", "Nc3", "d5"]),
    Opening("Nimzo-Indian Defense", ["d4", "Nf6", "c4", "e6", "Nc3", "Bb4"]),
    Opening("Queen's Indian Defense", ["d4", "Nf6", "c4", "e6", "Nf3", "b6"]),
    Opening("Bogo-Indian Defense", ["d4", "Nf6", "c4", "e6", "Nf3", "Bb4+"]),
    Opening("Benoni Defense", ["d4", "Nf6", "c4", "c5"]),
    Opening("Modern Benoni", ["d4", "Nf6", "c4", "c5", "d5"]),
    Opening("Dutch Defense", ["d4", "f5"]),
    Opening("London System", ["d4", "Nf6", "Nf3", "d5", "Bf4"]),
    Opening("Torre Attack", ["d4", "Nf6", "Nf3", "e6", "Bg5"]),
    Opening("Trompowsky Attack", ["d4", "Nf6", "Bg5"]),
    Opening("Catalan Opening", ["d4", "Nf6", "c4", "e6", "g3"]),
    // Flank Openings
    Opening("English Opening", ["c4"]),
    Opening("English: Symmetrical", ["c4", "c5"]),
    Opening("English: Reversed Sicilian", ["c4", "e5"]),
    Opening("Reti Opening", ["Nf3"]),
    Opening("Reti: King's Indian Attack", ["Nf3", "d5", "g3"]),
    Opening("Bird's Opening", ["f4"]),
    Opening("Polish Opening", ["b4"]),
    Opening("Hungarian Opening", ["g3"]),
    // Other
    Opening("Vienna Game", ["e4", "e5", "Nc3"]),
    Opening("Four Knights Game", ["e4", "e5", "Nf3", "Nc6", "Nc3", "Nf6"]),
    Opening("Philidor Defense", ["e4", "e5", "Nf3", "d6"]),
    Opening("Elephant Gambit", ["e4", "e5", "Nf3", "d5"]),
    Opening("Latvian Gambit", ["e4", "e5", "Nf3", "f5"])
  ]

  // ---------------------------------------------------------------------------
  // Matching one entry

  /** The comparison loop of the filter: positions i.. of the line agree with the game. */
  function AgreeFrom(line: seq<string>, moves: seq<string>, i: nat): (b: bool)
    requires i <= |line| <= |moves|
    ensures b <==> forall j :: i <= j < |line| ==> line[j] == moves[j]
    decreases |line| - i
  {
    if i == |line| then true
    else if line[i] != moves[i] then false
    else AgreeFrom(line, moves, i + 1)
  }

  /** The filter's test: too long a line fails, otherwise every move must agree. */
  function EntryMatches(o: Opening, moves: seq<string>): (b: bool)
    ensures b <==> o.moves <= moves
    ensures |o.moves| > |moves| ==> !b
  {
    if |o.moves| > |moves| then false
    else
      var b := AgreeFrom(o.moves, moves, 0);
      assert b ==> o.moves == moves[..|o.moves|];
      b
  }

  /** OPENING_DATABASE.filter(...): the matching entries in database order. */
  function Filter(db: seq<Opening>, moves: seq<string>): (r: seq<Opening>)
    ensures |r| <= |db|
    ensures forall o :: o in r <==> o in db && EntryMatches(o, moves)
  {
    if db == [] then []
    else
      var init := db[..|db| - 1];
      var last := db[|db| - 1];
      assert forall o :: o in db <==> o in init || o == last;
      Filter(init, moves) + (if EntryMatches(last, moves) then [last] else [])
  }

  /** One step of the reduce: the current entry replaces the running one only if strictly longer. */
  function Longer(longest: Opening, current: Opening): (r: Opening)
    ensures r == longest || r == current
    ensures |r.moves| >= |longest.moves| && |r.moves| >= |current.moves|
  {
    if |current.moves| > |longest.moves| then current else longest
  }

  /** reduce without an initial value: the first entry seeds the fold. */
  function FoldLongest(longest: Opening, rest: seq<Opening>): Opening
    decreases |rest|
  {
    if rest == [] then longest else FoldLongest(Longer(longest, rest[0]), rest[1..])
  }

  function Longest(s: seq<Opening>): Opening
    requires |s| > 0
  {
    FoldLongest(s[0], s[1..])
  }

  /** The fold read from the other end: the last step sees the result of all earlier ones. */
  lemma {:induction false} FoldLongestSnoc(longest: Opening, rest: seq<Opening>, x: Opening)
    ensures FoldLongest(longest, rest + [x]) == Longer(FoldLongest(longest, rest), x)
    decreases |rest|
  {
    if rest != [] {
      assert (rest + [x])[1..] == rest[1..] + [x];
      FoldLongestSnoc(Longer(longest, rest[0]), rest[1..], x);
    }
  }

  /** The reference answer: the index of the first database entry among the longest matching ones. */
  function BestMatch(db: seq<Opening>, moves: seq<string>): (k: Option<nat>)
    ensures k.None? <==> forall j :: 0 <= j < |db| ==> !EntryMatches(db[j], moves)
    ensures k.Some? ==> k.value < |db| && EntryMatches(db[k.value], moves)
    ensures k.Some? ==> forall j :: 0 <= j < |db| && EntryMatches(db[j], moves) ==>
      |db[j].moves| <= |db[k.value].moves|
    ensures k.Some? ==> forall j :: 0 <= j < k.value && EntryMatches(db[j], moves) ==>
      |db[j].moves| < |db[k.value].moves|
  {
    if db == [] then None
    else
      var n := |db| - 1;
      var k := BestMatch(db[..n], moves);
      if !EntryMatches(db[n], moves) then k
      else if k.None? || |db[n].moves| > |db[k.value].moves| then Some(n)
      else k
  }

  /** The filter followed by the reduce picks the reference entry. */
  lemma {:induction false} LongestOfFilterIsBestMatch(db: seq<Opening>, moves: seq<string>)
    requires Filter(db, moves) != []
    ensures BestMatch(db, moves).Some?
    ensures Longest(Filter(db, moves)) == db[BestMatch(db, moves).value]
  {
    var n := |db| - 1;
    var init := db[..n];
    var f := Filter(init, moves);
    var k := BestMatch(init, moves);
    assert Filter(db, moves) == f + (if EntryMatches(db[n], moves) then [db[n]] else []);
    if EntryMatches(db[n], moves) {
      if f == [] {
        assert Filter(db, moves) == [db[n]];
        assert k.None? by {
          forall j | 0 <= j < |init| ensures !EntryMatches(init[j], moves) {
            assert init[j] in init;
          }
        }
      } else {
        LongestOfFilterIsBestMatch(init, moves);
        assert init[k.value] == db[k.value];
        assert (f + [db[n]])[1..] == f[1..] + [db[n]];
        FoldLongestSnoc(f[0], f[1..], db[n]);
      }
    } else {
      assert Filter(db, moves) == f;
      LongestOfFilterIsBestMatch(init, moves);
      assert BestMatch(db, moves) == k;
      assert init[k.value] == db[k.value];
    }
  }

  // ---------------------------------------------------------------------------
  // detectOpening

  function Sans(history: seq<Move>): (sans: seq<string>)
    ensures |sans| == |history|
    ensures forall i :: 0 <= i < |history| ==> sans[i] == history[i].san
  {
    seq(|history|, i requires 0 <= i < |history| => history[i].san)
  }

  /** The generic names used when no database line matches. */
  function FallbackName(moves: seq<string>): string
    requires |moves| > 0
  {
    if |moves| == 1 then
      if moves[0] == "e4" then "King's Pawn Opening"
      else if moves[0] == "d4" then "Queen's Pawn Opening"
      else if moves[0] == "c4" then "English Opening"
      else if moves[0] == "Nf3" then "Reti Opening"
      else "Uncommon Opening"
    else if moves[0] == "e4" then
      if moves[1] == "e5" then "King's Pawn Game" else "King's Pawn Opening"
    else if moves[0] == "d4" then "Queen's Pawn Opening"
    else "Custom Opening"
  }

  /** detectOpening against a given database. */
  function DetectOpeningIn(db: seq<Opening>, history: seq<Move>): (name: string)
    ensures history == [] ==> name == "Starting Position"
    ensures history != [] && BestMatch(db, Sans(history)).Some? ==>
      name == db[BestMatch(db, Sans(history)).value].name
    ensures history != [] && BestMatch(db, Sans(history)).None? ==> name == FallbackName(Sans(history))
  {
    if |history| == 0 then "Starting Position"
    else
      var moves := Sans(history);
      var matches := Filter(db, moves);
      if |matches| > 0 then
        LongestOfFilterIsBestMatch(db, moves);
        Longest(matches).name
      else
        assert forall j :: 0 <= j < |db| ==> db[j] in db;
        FallbackName(moves)
  }

  function DetectOpening(history: seq<Move>): string {
    DetectOpeningIn(OPENING_DATABASE, history)
  }

  /** The fallback names, case by case, when no line matches. */
  lemma FallbackNames(db: seq<Opening>, history: seq<Move>)
    requires history != [] && BestMatch(db, Sans(history)).None?
    ensures var m := Sans(history); var name := DetectOpeningIn(db, history);
      && (|m| == 1 && m[0] == "e4" ==> name == "King's Pawn Opening")
      && (|m| == 1 && m[0] == "d4" ==> name == "Queen's Pawn Opening")
      && (|m| == 1 && m[0] == "c4" ==> name == "English Opening")
      && (|m| == 1 && m[0] == "Nf3" ==> name == "Reti Opening")
      && (|m| == 1 && m[0] !in ["e4", "d4", "c4", "Nf3"] ==> name == "Uncommon Opening")
      && (|m| >= 2 && m[0] == "e4" && m[1] == "e5" ==> name == "King's Pawn Game")
      && (|m| >= 2 && m[0] == "e4" && m[1] != "e5" ==> name == "King's Pawn Opening")
      && (|m| >= 2 && m[0] == "d4" ==> name == "Queen's Pawn Opening")
      && (|m| >= 2 && m[0] != "e4" && m[0] != "d4" ==> name == "Custom Opening")
  {
  }

  // ---------------------------------------------------------------------------
  // getShortOpeningName

  predicate OccursAt(s: string, pat: string, i: int) {
    0 <= i && i + |pat| <= |s| && s[i..i + |pat|] == pat
  }

  /** The position of the first occurrence of pat in s, as String.prototype.replace finds it. */
  function FindFirst(s: string, pat: string): (k: Option<nat>)
    ensures k.None? <==> forall i :: 0 <= i <= |s| ==> !OccursAt(s, pat, i)
    ensures k.Some? ==> OccursAt(s, pat, k.value) && forall i :: 0 <= i < k.value ==> !OccursAt(s, pat, i)
  {
    if |s| < |pat| then None
    else if s[..|pat|] == pat then
      assert OccursAt(s, pat, 0);
      Some(0)
    else
      assert !OccursAt(s, pat, 0);
      var k := FindFirst(s[1..], pat);
      assert forall i :: 1 <= i <= |s| ==> (OccursAt(s, pat, i) <==> OccursAt(s[1..], pat, i - 1));
      if k.None? then None
      else
        assert OccursAt(s, pat, k.value + 1);
        Some(k.value + 1)
  }

  /** s.replace(pat, ""): the first occurrence removed, if there is one. */
  function RemoveFirst(s: string, pat: string): (r: string)
    ensures |r| <= |s|
    ensures FindFirst(s, pat).None? ==> r == s
    ensures FindFirst(s, pat).Some? ==> |r| == |s| - |pat|
    ensures FindFirst(s, pat).Some? ==>
      var i := FindFirst(s, pat).value; i <= |r| && s == r[..i] + pat + r[i..]
  {
    match FindFirst(s, pat)
    case None => s
    case Some(i) =>
      var r := s[..i] + s[i + |pat|..];
      assert r[..i] == s[..i] && r[i..] == s[i + |pat|..];
      assert s == s[..i] + s[i..i + |pat|] + s[i + |pat|..];
      r
  }

  const SUFFIXES: seq<string> := [": Classical", ": Main Line", " Opening", " Game", " Defense", " Variation"]

  /** The replace chain: each pattern in turn, applied to what the previous ones left. */
  function RemoveEach(s: string, pats: seq<string>): (r: string)
    ensures |r| <= |s|
    decreases |pats|
  {
    if pats == [] then s else RemoveEach(RemoveFirst(s, pats[0]), pats[1..])
  }

  function ShortName(fullName: string): string {
    RemoveEach(fullName, SUFFIXES)
  }

  function GetShortOpeningName(history: seq<Move>): (short: string)
    ensures |short| <= |DetectOpening(history)|
  {
    ShortName(DetectOpening(history))
  }

  /** A name in which none of the patterns occurs comes back unchanged. */
  lemma {:induction false} RemoveEachUnchanged(s: string, pats: seq<string>)
    requires forall p :: p in pats ==> FindFirst(s, p).None?
    ensures RemoveEach(s, pats) == s
    decreases |pats|
  {
    if pats != [] {
      RemoveEachUnchanged(s, pats[1..]);
    }
  }

  /** When one of the non-empty patterns occurs, the chain removes something: the first pattern that
      occurs is still there when its turn comes, because the ones before it change nothing. */
  lemma {:induction false} RemoveEachShortens(s: string, pats: seq<string>)
    requires forall j :: 0 <= j < |pats| ==> pats[j] != ""
    requires exists j :: 0 <= j < |pats| && FindFirst(s, pats[j]).Some?
    ensures |RemoveEach(s, pats)| < |s|
    decreases |pats|
  {
    var rest := pats[1..];
    if FindFirst(s, pats[0]).None? {
      var j :| 0 <= j < |pats| && FindFirst(s, pats[j]).Some?;
      assert rest[j - 1] == pats[j];
      RemoveEachShortens(s, rest);
    }
  }

  /** Removing the suffixes never lengthens the name, and shortens it exactly when one occurs. */
  lemma ShortNameProperties(fullName: string)
    ensures |ShortName(fullName)| <= |fullName|
    ensures (forall p :: p in SUFFIXES ==> FindFirst(fullName, p).None?) ==> ShortName(fullName) == fullName
    ensures (exists p :: p in SUFFIXES && FindFirst(fullName, p).Some?) ==> |ShortName(fullName)| < |fullName|
  {
    if forall p :: p in SUFFIXES ==> FindFirst(fullName, p).None? {
      RemoveEachUnchanged(fullName, SUFFIXES);
    } else {
      var p :| p in SUFFIXES && FindFirst(fullName, p).Some?;
      var j :| 0 <= j < |SUFFIXES| && SUFFIXES[j] == p;
      RemoveEachShortens(fullName, SUFFIXES);
    }
  }
}
