/** The move-history panel: the moves grouped into numbered (White, Black) rows, and the panel width. */
module MoveHistory {
  import opened ChessTypes

  /** All the pairs laid end to end. */
  function Flatten(pairs: seq<seq<Move>>): seq<Move>
  {
    if pairs == [] then [] else pairs[0] + Flatten(pairs[1..])
  }

  /** The pairing read two moves at a time from the front. */
  function Pairs(history: seq<Move>): seq<seq<Move>>
    decreases |history|
  {
    if |history| <= 1 then (if history == [] then [] else [history])
    else [history[..2]] + Pairs(history[2..])
  }

  lemma {:induction false} FlattenPairs(history: seq<Move>)
    ensures Flatten(Pairs(history)) == history
    decreases |history|
  {
    if |history| > 1 {
      FlattenPairs(history[2..]);
      assert history == history[..2] + history[2..];
    }
  }

  /** Pair i of a history: moves 2i and, where it exists, 2i + 1. */
  function PairAt(history: seq<Move>, i: nat): (p: seq<Move>)
    requires 2 * i < |history|
    ensures 1 <= |p| <= 2 && p[0] == history[2 * i]
    ensures |p| == 2 <==> 2 * i + 1 < |history|
    ensures |p| == 2 ==> p[1] == history[2 * i + 1]
  {
    if 2 * i + 1 < |history| then history[2 * i..2 * i + 2] else [history[2 * i]]
  }

  /** There are ceil(n / 2) pairs, and pair i holds moves 2i and (where it exists) 2i + 1. */
  lemma {:induction false} PairsAt(history: seq<Move>)
    ensures |Pairs(history)| == (|history| + 1) / 2
    ensures forall i :: 0 <= i < |Pairs(history)| ==> 2 * i < |history| && Pairs(history)[i] == PairAt(history, i)
    decreases |history|
  {
    if |history| > 1 {
      var rest := history[2..];
      PairsAt(rest);
      forall i | 0 < i < |Pairs(history)|
        ensures Pairs(history)[i] == PairAt(history, i)
      {
        assert Pairs(history)[i] == Pairs(rest)[i - 1] == PairAt(rest, i - 1);
      }
    }
  }

  /** Only the last pair of an odd-length history holds a single move. */
  lemma SingletonPairs(history: seq<Move>)
    ensures forall i :: 0 <= i < |Pairs(history)| ==>
      (|Pairs(history)[i]| == 1 <==> i == |Pairs(history)| - 1 && |history| % 2 == 1)
  {
    PairsAt(history);
    var ps := Pairs(history);
    forall i | 0 <= i < |ps|
      ensures |ps[i]| == 1 <==> i == |ps| - 1 && |history| % 2 == 1
    {
      assert |ps[i]| == |PairAt(history, i)|;
    }
  }

  /** The reduce that builds movePairs: an even index opens a new pair, an odd one completes the last. */
  method MovePairs(history: seq<Move>) returns (pairs: seq<seq<Move>>)
    ensures pairs == Pairs(history)
  {
    pairs := [];
    for i := 0 to |history|
      invariant |pairs| == (i + 1) / 2
      invariant forall j :: 0 <= j < i / 2 ==> pairs[j] == history[2 * j..2 * j + 2]
      invariant i % 2 == 1 ==> pairs[i / 2] == [history[i - 1]]
    {
      if i % 2 == 0 {
        pairs := pairs + [[history[i]]];
      } else {
        pairs := pairs[..|pairs| - 1] + [pairs[|pairs| - 1] + [history[i]]];
        assert pairs[i / 2] == history[i - 1..i + 1];
      }
    }
    forall j | 0 <= j < |pairs|
      ensures 2 * j < |history| && pairs[j] == PairAt(history, j)
    {
      if j == |pairs| - 1 && |history| % 2 == 1 {
        assert pairs[j] == [history[2 * j]];
      }
    }
    PairsAt(history);
  }

  /** One table row: number i + 1, White's move, and Black's move or an empty cell. */
  datatype Row = Row(number: int, white: string, black: string)

  function RowOf(pairs: seq<seq<Move>>, i: nat): (r: Row)
    requires i < |pairs| && |pairs[i]| > 0
    ensures r.number == i + 1
    ensures r.white == pairs[i][0].san
    ensures |pairs[i]| == 1 ==> r.black == ""
    ensures |pairs[i]| > 1 ==> r.black == pairs[i][1].san
  {
    Row(i + 1, pairs[i][0].san, if |pairs[i]| > 1 then pairs[i][1].san else "")
  }

  /** Math.max(300, squareSize * 4). */
  function PanelWidth(squareSize: int): (w: int)
    ensures w >= 300 && w >= 4 * squareSize
    ensures w == 300 || w == 4 * squareSize
  {
    if 300 >= squareSize * 4 then 300 else squareSize * 4
  }
}
