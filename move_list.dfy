/**
 * The one-line move advisory: the legal moves, already encoded in algebraic
 * notation and in the library's enumeration order, each preceded by a space.
 */
module MoveList {

  /** Every move prefixed with " ", concatenated in order. */
  function Join(moves: seq<string>): (line: string)
    ensures line == "" <==> moves == []
    ensures moves != [] ==> line[0] == ' '
  {
    if moves == [] then "" else " " + moves[0] + Join(moves[1..])
  }

  /** Appending a move appends " " and the move to the line, as the loop does. */
  lemma {:induction false} JoinSnoc(moves: seq<string>, m: string)
    ensures Join(moves + [m]) == Join(moves) + " " + m
  {
    if moves == [] {
      assert [m][1..] == [];
    } else {
      assert (moves + [m])[1..] == moves[1..] + [m];
      JoinSnoc(moves[1..], m);
    }
  }

  /** The longest prefix of s without a space. */
  function Word(s: string): (w: string)
    ensures |w| <= |s| && w == s[..|w|] && ' ' !in w
    ensures |w| < |s| ==> s[|w|] == ' '
  {
    if s == [] || s[0] == ' ' then "" else [s[0]] + Word(s[1..])
  }

  /** Reads a space-prefixed line back into its moves. */
  function SplitMoves(line: string): (moves: seq<string>)
    decreases |line|
  {
    if line == [] then [] else
      var w := Word(line[1..]);
      [w] + SplitMoves(line[1 + |w|..])
  }

  predicate NoSpaces(moves: seq<string>)
  {
    forall i :: 0 <= i < |moves| ==> ' ' !in moves[i]
  }

  /** A move followed by nothing or by a space is read back as that move. */
  lemma {:induction false} WordOfMove(m: string, rest: string)
    requires ' ' !in m
    requires rest == [] || rest[0] == ' '
    ensures Word(m + rest) == m
  {
    if m != [] {
      assert (m + rest)[0] == m[0] && m[0] in m;
      assert (m + rest)[1..] == m[1..] + rest;
      WordOfMove(m[1..], rest);
      assert m == [m[0]] + m[1..];
    }
  }

  /** As long as no move contains a space, the line determines the moves. */
  lemma {:induction false} SplitJoin(moves: seq<string>)
    requires NoSpaces(moves)
    ensures SplitMoves(Join(moves)) == moves
  {
    if moves != [] {
      var line := Join(moves);
      var rest := Join(moves[1..]);
      assert line[1..] == moves[0] + rest;
      WordOfMove(moves[0], rest);
      assert line[1 + |moves[0]|..] == rest;
      SplitJoin(moves[1..]);
    }
  }

  /** The line is as long as the moves plus one separator per move. */
  lemma {:induction false} JoinLength(moves: seq<string>)
    ensures |Join(moves)| == |moves| + TotalLength(moves)
  {
    if moves != [] {
      JoinLength(moves[1..]);
    }
  }

  function TotalLength(moves: seq<string>): nat
  {
    if moves == [] then 0 else |moves[0]| + TotalLength(moves[1..])
  }
}
