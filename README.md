# Pinata session metadata, modelled in Dafny

Pinata is a command-line chess program: a human plays against an external
engine binary. This project models the session layer in `cmd/game.go`. That
layer saves a game to a PGN file and resumes it later. Resuming brings back
two settings: which colour the human plays and which engine binary plays
the other side. The program keeps these in the globals `gHumanIsBlack` and
`gEngineBinary`. It stores them in the game's tag pairs:

- `Annotator` is `"pinata"`. It marks files this program wrote. A load
  refuses any other file.
- The human's side (`White` or `Black`) has the value `"Human"`.
- The other side has the engine binary's name.
- A save also writes `Date` (`%d-%02d-%02d`) and `Result`, the outcome's token.

The chess library's game is reduced to four things:

- a tag map (`map<string, string>`);
- an outcome (`NoOutcome`, `WhiteWon`, `BlackWon`, `Draw`);
- the name of the method that ended the game;
- the legal moves of the current position, already encoded in algebraic
  notation, in the library's enumeration order.

Modules:

- `Options`: the Some/None wrapper.
- `Chess`: the library's colours and outcomes, the Result tokens, and a
  `GameRecord` class whose tag store is updated in place.
- `DateFormat`: the Date tag as Go's `fmt.Sprintf` prints it.
- `MoveList`: the one-line move advisory, and splitting it back into moves.
- `SessionTags`: the pure encode and decode of the session tags, and the
  round-trip lemmas.
- `Game`: the operations of `cmd/game.go`. The two globals are the fields of
  a `Session` class. `LoadPGN` and `SavePGN` are its methods, proved against
  `DecodeSession` and `EncodeSession`.

The central result is `SessionTags.RoundTripExactly`. Save then load gives
back the session settings exactly when the engine name is non-empty and is
not `"Human"`, with one exception: an engine named `"Human"` still round-trips
when the human plays Black. The two failing cases are spelled out:

- `EmptyEngineNotResumable`: an empty engine name writes a file the load
  gate refuses.
- `HumanNamedEngineSwapsSides`: an engine named `"Human"` against a human
  playing White comes back with the human playing Black.

Two details of the load follow the code closely:

- The load gate refuses a file when either `White` or `Black` is empty
  (cmd/game.go:65).
- When both sides are `"Human"`, the load takes the Black branch, with the
  engine named `"Human"` (cmd/game.go:71; `BothHumanDecodesAsBlack`).

## Model

| member | source | states |
|---|---|---|
| Game.GetTagPair | cmd/game.go:30-38 | `""` for a nil game or an absent key; otherwise exactly the stored value |
| SessionTags.Tag | cmd/game.go:32-35 | on a present game, a lookup gives the stored value, or `""` when the key is absent |
| SessionTags.DecodeSession | cmd/game.go:60-81 | accepted iff Annotator is `"pinata"` and White and Black are both present and non-empty; then humanIsBlack iff Black is `"Human"`, and the engine is the other side's value, never `""` |
| Game.Session.LoadPGN | cmd/game.go:41-84 | returns a fresh game only for a parsed file that passes the gate; then the session fields are the decoded settings and the game carries the file's tags; on every refusal the fields are unchanged; the notice follows the branch taken (read, parse, init, provenance, resuming as colour against engine) |
| SessionTags.EncodeSession | cmd/game.go:96-107 | after the save's writes: Annotator is `"pinata"`, Date and Result are the given strings, the human's side is `"Human"`, the other side is the engine; the keys are the old keys plus these five, and every other tag is untouched |
| Game.Session.SavePGN | cmd/game.go:87-117 | a failed create changes no tag and reports CreateFailed; otherwise the tags become EncodeSession of the old tags, the session, the outcome's token and the formatted date, and the result is Saved or WriteFailed depending on the write |
| Chess.GameRecord.AddTagPair | cmd/game.go:96 | setting a tag overwrites or inserts that key and changes nothing else |
| Chess.GameRecord.constructor | cmd/game.go:54 | a game built from a parsed file carries its tags, outcome, method and legal moves |
| SessionTags.HumanColor | cmd/game.go:152-157 | the human's colour is Black iff humanIsBlack |
| SessionTags.SaveThenLoad | cmd/game.go:96-107 | for an engine named neither `""` nor `"Human"`, decoding the saved tags passes the gate and gives back the same humanIsBlack and engine, whatever other tags were present |
| SessionTags.RoundTripExactly | cmd/game.go:65-81 | save-then-load recovers the settings iff the engine is non-empty and is `"Human"` only when the human plays Black |
| SessionTags.EmptyEngineNotResumable | cmd/game.go:65 | a session saved with an empty engine name is refused by the gate on load |
| SessionTags.HumanNamedEngineSwapsSides | cmd/game.go:71-73 | an engine named `"Human"` with the human on White reloads as the human on Black |
| SessionTags.BothHumanDecodesAsBlack | cmd/game.go:71-81 | when White and Black are both `"Human"`, the load takes the Black branch with engine `"Human"` |
| SessionTags.LoadThenSaveKeepsPlayers | cmd/game.go:101-107 | re-saving a loaded file keeps its White and Black tags iff at least one of them is `"Human"` |
| Game.SaveThenResume | cmd/game.go:96-107 | a successful SavePGN followed by LoadPGN of the saved tags returns a game and restores the saver's settings, for an engine named neither `""` nor `"Human"` |
| DateFormat.Decimal | cmd/game.go:98 | `%d` of a non-negative number: at least one digit, all digits, no leading zero, one digit iff below 10, at most two iff below 100 |
| DateFormat.Pad2 | cmd/game.go:98 | `%02d`: all digits, exactly two for a number below 100 |
| DateFormat.DecimalRoundTrip | cmd/game.go:98 | reading the printed digits back gives the number |
| DateFormat.DecimalInjective | cmd/game.go:98 | distinct numbers print differently |
| DateFormat.Pad2Value | cmd/game.go:98 | the two padded digits read back as the number |
| DateFormat.FormatInt | cmd/game.go:98 | `%d` of any int: a leading `-` exactly for a negative one, followed by digits that read back as its absolute value |
| DateFormat.FormatDate | cmd/game.go:98 | the year as `%d`, then `-`; for a month and day below 100, exactly six more characters: two digits reading as the month, `-`, two digits reading as the day |
| DateFormat.DateLayout | cmd/game.go:97-99 | for a calendar month and day, the Date tag is the year's digits, `-`, two digits reading as the month, `-`, two digits reading as the day |
| DateFormat.DateInjective | cmd/game.go:97-99 | two calendar dates with the same Date tag are equal |
| Game.IsGameOver | cmd/game.go:131-148 | false and silent exactly for NoOutcome; true with "Game Draw (m)", "White Won (m)" or "Black Won (m)" for the other three |
| Game.GameOverAgreesWithResultTag | cmd/game.go:131-148 | the game is over iff the Result token the save writes is not `"*"` |
| Chess.Outcome.String | cmd/game.go:100 | the Result token of each outcome; it is the in-progress token `"*"` exactly for NoOutcome |
| Chess.OutcomeTokensDistinct | cmd/game.go:100 | distinct outcomes are written as distinct Result tokens |
| MoveList.Join | cmd/game.go:171-176 | the line is `""` iff there are no moves, and otherwise starts with a space |
| MoveList.JoinSnoc | cmd/game.go:172-174 | adding a move appends `" "` and that move to the line |
| MoveList.SplitJoin | cmd/game.go:171-176 | when no move contains a space, splitting the line gives back the moves in order |
| MoveList.JoinLength | cmd/game.go:171-176 | the line's length is the number of moves plus their total length |
| Game.ValidMoves | cmd/game.go:171-176 | the loop's result is the in-order space-prefixed concatenation of the legal moves |
| Game.ValidMovesCompletion | cmd/game.go:160-168 | the completion list is exactly the legal moves, in enumeration order, whatever the typed line |

## Left out

- Reading the file (cmd/game.go:42), PGN parsing (cmd/game.go:48) and building the game (cmd/game.go:54) are done by the OS and the chess library. Their outcomes are the `PgnFile` input: Unreadable, Malformed, Unplayable, or Parsed with the parsed tags, outcome and moves.
- Creating, writing and closing the file (cmd/game.go:88-93, cmd/game.go:110) are OS effects. Whether the create and the write succeed are the inputs `canCreate` and `canWrite`. The deferred close is not modelled.
- Game.Session.SavePGN: does not state the text written to the file, because that is the library's PGN serialisation (`game.String()`) plus a newline, and the library is not part of this model.
- Move generation and algebraic-notation encoding (cmd/game.go:162-163, cmd/game.go:172-173) belong to the library. The encoded moves are the `legalMoves` field of the game.
- `drawBoard` (cmd/game.go:119-129) only renders the board through the library and prints it.
- Console colouring and printing: `LoadNotice` and the message of `IsGameOver` say which message is printed, without the colour and bold codes.
- The clock (`time.Now()`, cmd/game.go:97): year, month and day are parameters of `SavePGN`.
- The library's `AddTagPair` is taken as a map insert-or-overwrite. The order in which tags are serialised is not modelled.
- `gGame` (read by `validMovesConstructor`) is the `game` parameter of `ValidMovesCompletion`; it is set outside cmd/game.go.
- `humanColor` reads the global `gHumanIsBlack`; that value is the parameter of `HumanColor`. The global itself is the `Session.humanIsBlack` field, which `LoadPGN` assigns (cmd/game.go:72, cmd/game.go:77).
- Game.IsGameOver: has no `panic` branch, because `Outcome` is a closed four-valued datatype. The library's outcome is a string type, but it only ever produces the four tokens.
- The four Result tokens (`*`, `1-0`, `0-1`, `1/2-1/2`) are the library's. They are the values of the Result tag in the PGN standard, section 8.1.1.7.
- `GetTagPair` reads the library's tag lookup, which returns a pointer or nil. It is modelled as map membership.
