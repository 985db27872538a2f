/**
 * cmd/game.go: tag lookup, loading and saving a session, reporting the end of
 * a game and listing the legal moves. The program's globals gHumanIsBlack and
 * gEngineBinary are the fields of a Session object; file reading, PGN parsing,
 * file creation and writing, and the clock are inputs.
 */
module Game {
  import opened Options
  import opened Chess
  import opened SessionTags
  import opened DateFormat
  import opened MoveList

  /** GetTagPair: the stored value, or "" for a nil game or an absent key. */
  function GetTagPair(game: GameRecord?, key: string): (v: string)
    reads game
    ensures game == null ==> v == ""
    ensures game != null && key !in game.tags ==> v == ""
    ensures game != null && key in game.tags ==> v == game.tags[key]
  {
    if game != null then Tag(game.tags, key) else ""
  }

  /** What reading and parsing the file gave, before the tags are looked at. */
  datatype PgnFile =
    | Unreadable
    | Malformed
    | Unplayable
    | Parsed(tags: TagMap, outcome: Outcome, methodName: string, legalMoves: seq<string>)

  /** The message a load prints. */
  datatype LoadNotice =
    | UnableToRead
    | NotValidPgn
    | UnableToInitialize
    | NotGeneratedByPinata
    | Resuming(human: Color, engineBinary: string)

  datatype SaveResult = Saved | CreateFailed | WriteFailed

  /** isGameOver: false and silent while undecided; otherwise true, with the announcement it prints. */
  function IsGameOver(outcome: Outcome, methodName: string): (r: (bool, Option<string>))
    ensures r.0 <==> outcome != NoOutcome
    ensures r.1.Some? <==> r.0
    ensures outcome == Draw ==> r.1 == Some("Game Draw (" + methodName + ")")
    ensures outcome == WhiteWon ==> r.1 == Some("White Won (" + methodName + ")")
    ensures outcome == BlackWon ==> r.1 == Some("Black Won (" + methodName + ")")
  {
    match outcome
    case NoOutcome => (false, None)
    case Draw => (true, Some("Game Draw (" + methodName + ")"))
    case WhiteWon => (true, Some("White Won (" + methodName + ")"))
    case BlackWon => (true, Some("Black Won (" + methodName + ")"))
  }

  /** The game is over exactly when the Result tag a save writes is not the in-progress token. */
  lemma GameOverAgreesWithResultTag(outcome: Outcome, methodName: string)
    ensures IsGameOver(outcome, methodName).0 <==> outcome.String() != "*"
  {
  }

  /** validMoves: the legal moves as one line, each preceded by a space. */
  method ValidMoves(game: GameRecord) returns (moves: string)
    ensures moves == Join(game.legalMoves)
  {
    var all := game.legalMoves;
    moves := "";
    for i := 0 to |all|
      invariant moves == Join(all[..i])
    {
      assert all[..i + 1] == all[..i] + [all[i]];
      JoinSnoc(all[..i], all[i]);
      moves := moves + " " + all[i];
    }
    assert all[..|all|] == all;
  }

  /** The completer built by validMovesConstructor: the legal moves in enumeration order; the typed line is ignored. */
  method ValidMovesCompletion(game: GameRecord, line: string) returns (moves: seq<string>)
    ensures moves == game.legalMoves
  {
    var all := game.legalMoves;
    moves := [];
    for i := 0 to |all|
      invariant moves == all[..i]
    {
      assert all[..i + 1] == all[..i] + [all[i]];
      moves := moves + [all[i]];
    }
    assert all[..|all|] == all;
  }

  /** The session settings, held in globals by the program. */
  class Session {
    var humanIsBlack: bool
    var engineBinary: string

    constructor (humanIsBlack: bool, engineBinary: string)
      ensures this.humanIsBlack == humanIsBlack && this.engineBinary == engineBinary
    {
      this.humanIsBlack := humanIsBlack;
      this.engineBinary := engineBinary;
    }

    function Config(): SessionConfig
      reads this
    {
      SessionConfig(humanIsBlack, engineBinary)
    }

    /**
     * loadPGN: a game comes back only from a parsed file that passes the
     * provenance gate; then the settings are the decoded ones, and otherwise
     * they are left as they were.
     */
    method LoadPGN(file: PgnFile) returns (game: GameRecord?, notice: LoadNotice)
      modifies this
      ensures game != null <==> file.Parsed? && DecodeSession(file.tags).Some?
      ensures game == null ==> humanIsBlack == old(humanIsBlack) && engineBinary == old(engineBinary)
      ensures game != null ==> fresh(game) && Some(Config()) == DecodeSession(file.tags)
      ensures game != null ==>
        && game.tags == file.tags && game.outcome == file.outcome
        && game.methodName == file.methodName && game.legalMoves == file.legalMoves
      ensures notice == match file
        case Unreadable => UnableToRead
        case Malformed => NotValidPgn
        case Unplayable => UnableToInitialize
        case Parsed(_, _, _, _) =>
          if game == null then NotGeneratedByPinata else Resuming(HumanColor(humanIsBlack), engineBinary)
    {
      match file
      case Unreadable =>
        return null, UnableToRead;
      case Malformed =>
        return null, NotValidPgn;
      case Unplayable =>
        return null, UnableToInitialize;
      case Parsed(tags, outcome, methodName, legalMoves) =>
        var g := new GameRecord(tags, outcome, methodName, legalMoves);
        var annotator := GetTagPair(g, "Annotator");
        var white := GetTagPair(g, "White");
        var black := GetTagPair(g, "Black");
        if annotator != Provenance || white == "" || black == "" {
          return null, NotGeneratedByPinata;
        }
        if black == HumanMarker {
          humanIsBlack := true;
          engineBinary := white;
          notice := Resuming(Black, engineBinary);
        } else {
          humanIsBlack := false;
          engineBinary := black;
          notice := Resuming(White, engineBinary);
        }
        game := g;
    }

    /**
     * savePGN: nothing changes when the file cannot be created; otherwise the
     * session tags are written (even if the write then fails).
     */
    method SavePGN(game: GameRecord, canCreate: bool, canWrite: bool, year: int, month: nat, day: nat)
      returns (result: SaveResult)
      modifies game`tags
      ensures !canCreate ==> result == CreateFailed && game.tags == old(game.tags)
      ensures canCreate ==> result == (if canWrite then Saved else WriteFailed)
      ensures canCreate ==>
        game.tags == EncodeSession(old(game.tags), Config(), game.outcome.String(), FormatDate(year, month, day))
    {
      if !canCreate {
        return CreateFailed;
      }
      game.AddTagPair("Annotator", Provenance);
      var date := FormatDate(year, month, day);
      game.AddTagPair("Date", date);
      game.AddTagPair("Result", game.outcome.String());
      if HumanColor(humanIsBlack) == White {
        game.AddTagPair("White", HumanMarker);
        game.AddTagPair("Black", engineBinary);
      } else {
        game.AddTagPair("White", engineBinary);
        game.AddTagPair("Black", HumanMarker);
      }
      result := if canWrite then Saved else WriteFailed;
    }
  }

  /**
   * A session saved and then loaded again, by the same run or by another
   * one, resumes with the settings it was saved with, for an engine named
   * neither "" nor "Human".
   */
  method SaveThenResume(saver: Session, game: GameRecord, year: int, month: nat, day: nat,
                        resumer: Session)
    returns (resumed: GameRecord?)
    requires saver.engineBinary != "" && saver.engineBinary != HumanMarker
    modifies game`tags, resumer
    ensures resumed != null && fresh(resumed) && resumed.tags == game.tags
    ensures resumer.humanIsBlack == old(saver.humanIsBlack) && resumer.engineBinary == old(saver.engineBinary)
  {
    var saved := saver.SavePGN(game, true, true, year, month, day);
    SaveThenLoad(old(game.tags), saver.Config(), game.outcome.String(), FormatDate(year, month, day));
    var notice;
    resumed, notice := resumer.LoadPGN(Parsed(game.tags, game.outcome, game.methodName, game.legalMoves));
  }
}
