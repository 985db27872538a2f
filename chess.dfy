/**
 * The values of the external chess library that the session layer reads and
 * writes. Move generation, notation encoding and PGN (de)serialisation stay
 * inside the library and are not modelled; a game record is reduced to its
 * tag store, its outcome, the name of the method that ended it and the list of
 * its legal moves, already encoded in algebraic notation.
 */
module Chess {
  datatype Color = White | Black

  /** The terminal-state signal of a game: four values, closed. */
  datatype Outcome = NoOutcome | WhiteWon | BlackWon | Draw {
    /** The token the library writes in the Result tag (section 8.1.1.7 of the PGN standard). */
    function String(): (token: string)
      ensures token == "*" <==> this == NoOutcome
    {
      match this
      case NoOutcome => "*"
      case WhiteWon => "1-0"
      case BlackWon => "0-1"
      case Draw => "1/2-1/2"
    }
  }

  /** The four outcomes are written as four different Result tokens. */
  lemma OutcomeTokensDistinct(o1: Outcome, o2: Outcome)
    requires o1 != o2
    ensures o1.String() != o2.String()
  {
  }

  /**
   * A live game owned by the chess library. The session layer only ever
   * touches its tags; the other fields are read.
   */
  class GameRecord {
    var tags: map<string, string>
    var outcome: Outcome
    var methodName: string
    var legalMoves: seq<string>

    constructor (tags: map<string, string>, outcome: Outcome, methodName: string, legalMoves: seq<string>)
      ensures this.tags == tags && this.outcome == outcome
      ensures this.methodName == methodName && this.legalMoves == legalMoves
    {
      this.tags := tags;
      this.outcome := outcome;
      this.methodName := methodName;
      this.legalMoves := legalMoves;
    }

    /** The library's tag setter, taken as insert-or-overwrite. */
    method AddTagPair(key: string, value: string)
      modifies this`tags
      ensures tags == old(tags)[key := value]
    {
      tags := tags[key := value];
    }
  }
}
