# Chess move validation, modelled in Dafny

This project models the move-validation engine of `chess-game.c`. The engine takes a
move written in simplified Standard Algebraic Notation (section 8.2.3 of the PGN
standard), the mover's colour and an 8x8 board of characters. Upper case letters are
white pieces, lower case letters are black pieces and `' '` is an empty cell. The engine
decides whether the move is legal and, if it is, plays it on the board.

The stages follow the source:

- **Parser** (`Notation`): `parseSrcFromPgn`, `parseDestFromPgn` and
  `parseConditionFromPgn` scan the text and fill a `Move` record.
- **Coordinate mapper** (`Notation`): `convertSrcMatrixIndex` and
  `convertDestMatrixIndex` turn ranks and files into row and column indices.
- **Per-piece validators** (`Validators`):
  - `checkRookMove` … `checkPawnMove` test the shape of the move and that its way is
    clear.
  - The three capture/colour predicates then run in the source's order.
- **Candidate resolver** (`Resolver`): `findOptionalPieceByMove` scans the squares the
  declared piece could come from. It returns the first square that holds the mover's
  piece, passes the validator and agrees with the disambiguation hints.
- **Check oracle, simulator and consistency rules** (`CheckRules`):
  - `isCheckCase` reruns the resolver with a king-capturing probe move.
  - `testBoardCheck` plays the move on a copy of the board.
  - `testCheckConditions` applies its four rules.
- **Executor** (`Engine`): `initMove`, `performMove` and `makeMove`.
- **FEN row expander** (`Fen`):
  - `createRow` decodes one rank of the piece-placement field of FEN (section 16.1 of
    the PGN standard).
  - `createBoard` applies it to each of the eight row texts.

`Move` is a datatype holding every field of the C record. Each stage takes a `Move` and
returns a new one, as the C stages pass the record by value. The board is modelled in
two ways:

- Stages that only read the board take it as a value: `Board`, a `seq<seq<char>>` of
  shape 8x8.
- The caller's board, which `performMove`, `makeMove` and `createRow` write in place, is
  an `array2<char>`. `Cells(a)` reads such an array as a `Board`.

Loops in the source are loops here. Each method carries invariants and is proved equal
to a specification function. Properties of those functions are then proved as lemmas:

- the parse results;
- the index ranges;
- every validator's acceptance, stated declaratively per piece kind;
- the resolver returns the first qualifying square in the source's scan order, and
  rejects only when no square qualifies;
- a legal move's source square holds the mover's piece and that piece's validator
  accepts it;
- only the source and destination cells change;
- a successful move declares check exactly when it gives check, and it never leaves the
  mover's own king in check.

### Modelling choices

- **SIZE.** `SIZE` is the constant 8.
- **Integer absolute value.** Absolute differences of coordinates use integer `Abs`
  where the source calls `fabs`.
- **isCheckCase.** The source never initialises the probe move's `isLegal` and
  `isPromotion`. Here they are `true` and `false`.
- **Absent destination.** A text with no destination digit or file, or with an
  off-board one, leaves the destination index as the record held it, which the source
  never initialises. Here the fresh record holds `-1`, so the move is illegal. Its
  conditions are still parsed, and the board is not read. A destination rank that is
  not a digit, where `toDigit` would abort, is treated the same way.
- **isWhiteDest.** `isWhiteDest` has no result for a non-letter, so the validators
  require the destination's occupant to be `' '` or a letter. `initMove` and `makeMove`
  therefore require every cell to be `' '` or a letter.
- **toDigit.** The `assert` in `toDigit` becomes a precondition.
- **Texts.** A move text or FEN row text is a sequence of characters. For the move text
  it is the C string's characters before its terminator, which is what the `strlen`
  loops scan. The FEN row expander stops at a NUL character, like the source.
- **Unchecked bounds.** The explicit bounds checks inside the path loops of the
  validators are dropped, because their indices always lie between two on-board squares.
  The four per-direction diagonal loops of `checkBishopMove` and `checkQueenMove` become
  one loop stepping from the source towards the destination. The resolver's frame scans
  keep the source's on-board test: squares of the frame outside the board are visited
  and skipped.
- **The fourth rule.** `limitedMoveInCheckCase` (in check before and after the move)
  fires only when `moveCauseToCheckThreat` (in check after the move) has already fired.
  `CheckRules.CheckConditions` states the rules' combined effect, which does not mention
  the fourth rule.
- **Hint scans.** As in the source, `parseSrcFromPgn` skips the capture sign `x` when
  looking for a file letter, but `parseDestFromPgn` counts any lower-case letter.
- **Promotion.** `=` records the next character as the promotion piece, and that
  character is then not examined for `x`, `+` or `#`.

## Model

| member | source | states |
|---|---|---|
| Chess.ToDigit | chess-game.c:76-79 | a digit's value is in 0..9 and `DigitChar` maps it back to the digit |
| Chess.ConvertPieceChar | chess-game.c:243-250 | the mover's board marker: the piece letter for white, its lower-case form for black |
| Chess.FindDestPiece | chess-game.c:531-534 | on a well-formed board the destination's occupant is `' '` or a letter, the two cases the colour tests handle |
| Notation.ParseSrcFromPgn | chess-game.c:314-368 | the backward scan yields `ParsedSrc`: the source rank hint is the second digit from the end and the file hint is the second file letter (not `x`) from the end, each NUL when absent; hints are NUL or a digit / a lower-case letter |
| Notation.SrcPiece | chess-game.c:314-368 | the piece kind is the text's first character when upper case, otherwise `P` |
| Notation.FirstMatchIsLast | chess-game.c:314-400 | the first character of a class met from the end is the last occurrence in the text |
| Notation.SecondMatchIsPrevious | chess-game.c:314-368 | the second character met from the end is the previous occurrence before the last one |
| Notation.SingleMatchNoHint | chess-game.c:314-368 | with a single digit (or letter) the hint is NUL |
| Notation.MatchesConcat | chess-game.c:325-345 | a backward scan of `a + b` meets `b`'s matches before `a`'s |
| Notation.ParseDestFromPgn | chess-game.c:378-400 | the destination rank is the last digit and the file the last lower-case letter of the text; either is left unchanged when absent |
| Notation.ParseConditionFromPgn | chess-game.c:492-522 | the flag loop yields `ParsedConditions`: the flags are reset, then set by `x`, `+`, `#`, `=` as the scan meets them |
| Notation.ParsedConditions | chess-game.c:492-522 | only the four flags and the promotion piece of the move change |
| Notation.ScanConditionsMonotone | chess-game.c:505-519 | the scan never clears a flag |
| Notation.ScanConditionsSigns | chess-game.c:492-522 | a flag is set only if its sign occurs; the promotion flag is set exactly when `=` occurs |
| Notation.ScanConditionsNoPromotion | chess-game.c:492-522 | without `=`, capture/check/mate are set exactly when `x`/`+`/`#` occur |
| Notation.ScanConditionsPromotionPiece | chess-game.c:492-522 | after a single `=` the promotion piece is the next character (NUL at the end), and `x`, `+` and `#` each set their flag exactly when they occur outside that swallowed character |
| Notation.RankToRow | chess-game.c:409-449 | a mapped rank is a row in 0..SIZE-1, and -1 otherwise |
| Notation.FileToColumn | chess-game.c:409-483 | a mapped file is a column in 0..SIZE-1, and -1 otherwise |
| Notation.ConvertSrcMatrixIndex | chess-game.c:409-449 | the hints map to rank r -> row SIZE-r and file 'a'+k -> column k, absent or off-board hints to -1 |
| Notation.RowIndex | chess-game.c:419-426 | the rank loop finds row SIZE-k for digit k, 1 <= k <= SIZE, else -1 |
| Notation.ColumnIndex | chess-game.c:437-446 | the file loop finds column k for 'a'+k, k < SIZE, else -1 |
| Notation.ConvertDestMatrixIndex | chess-game.c:458-483 | the destination maps the same way; a rank or file the loops do not find leaves the index as it was |
| Validators.IsWhiteDest | chess-game.c:1859-1866 | a letter is white exactly when it is upper case |
| Validators.SameColorPieceTest | chess-game.c:1879-1905 | true exactly when the destination holds a piece of the mover's colour |
| Validators.NoCaptureDestTest | chess-game.c:1918-1926 | true exactly when a capture is declared onto an empty destination |
| Validators.NoCaptureDeclareTest | chess-game.c:1939-1964 | true exactly when the destination holds an opponent's piece and no capture is declared |
| Validators.CaptureRulesOk | chess-game.c:1122-1147 | the three tests pass exactly when the destination is empty with no capture declared, or holds an opponent's piece with a capture declared |
| Validators.CaptureVerdict | chess-game.c:1122-1147 | running the three tests in order marks the move illegal exactly when `CaptureRulesOk` fails |
| Validators.CheckStraightPath | chess-game.c:1047-1100 | the loops report a clear way exactly when every square strictly between source and destination on the row or column is empty |
| Validators.CheckDiagonalPath | chess-game.c:1263-1334 | the loops report a clear way exactly when every square strictly between source and destination on the diagonal is empty |
| Validators.CheckRookMove | chess-game.c:1031-1150 | the result is the move, marked illegal exactly when the rook's shape, way or capture rules fail (`RookAccepts`) |
| Validators.CheckKnightMove | chess-game.c:1162-1217 | illegal exactly when the offset is not a knight's or the capture rules fail |
| Validators.KnightOffsets | chess-game.c:1162-1217 | the knight's shape is exactly the eight offsets (±2,±1), (±1,±2) |
| Validators.CheckBishopMove | chess-game.c:1229-1372 | illegal exactly when the move is not diagonal, the diagonal is blocked or the capture rules fail |
| Validators.CheckQueenMove | chess-game.c:1384-1602 | illegal exactly when the move is neither straight nor diagonal, its way is blocked or the capture rules fail |
| Validators.CheckKingMove | chess-game.c:1614-1666 | illegal exactly when the king moves more than one row or column or the capture rules fail |
| Validators.PawnMovementTest | chess-game.c:1690-1790 | the pawn's shape per colour: quiet moves keep the column and go one row forward (two from the start row), captures one diagonal step forward, the far row needs a promotion |
| Validators.CheckPawnMove | chess-game.c:1678-1848 | illegal exactly when the shape fails, a two-step jumps an occupied square or the capture rules fail |
| Validators.PawnAdvance | chess-game.c:1678-1848 | an accepted forward pawn move is one step, or two from the start row over an empty square, in its column when quiet; a capture is one diagonal step onto an opponent's piece; the far row needs a promotion |
| Resolver.FindOptionalPieceByMove | chess-game.c:551-1019 | the per-kind scan returns `Resolve`: the first qualifying square as source, or the move marked illegal |
| Resolver.ResolveRook | chess-game.c:566-629 | column then row scan of the rook case equals `Resolve` |
| Resolver.ScanFrame | chess-game.c:631-1012 | a row-by-row scan of a frame covering every candidate equals `Resolve` |
| Resolver.TryCandidate | chess-game.c:631-1012 | a square is accepted exactly when it holds the mover's piece, is offered by the kind's filter, passes the validator and agrees with the hints |
| Resolver.Validate | chess-game.c:631-1012 | the kind's validator accepts exactly when `Accepts` holds |
| Resolver.ScanRow | chess-game.c:745-782 | one row of a frame scan returns the first qualifying column, with none before it, or -1 when no column of the frame qualifies |
| Resolver.OutsideFrame | chess-game.c:631-1012 | no square outside a frame that covers the kind's scan qualifies |
| Resolver.FirstInGridSound | chess-game.c:745-782 | the row-major search finds a qualifying square with none before it, or reports that none qualifies |
| Resolver.FirstTrueSound | chess-game.c:574-613 | the rook search finds a qualifying scan position with none before it, or reports that none qualifies |
| Resolver.ResolveSound | chess-game.c:551-1019 | a legal result has an on-board source holding the mover's piece, accepted by its kind's validator, equal to every given hint, with nothing else changed; a rejection changes only the legality |
| Resolver.ResolveRookFirst | chess-game.c:574-613 | the rook's result is the square at some position of its scan (the column top to bottom, then the row left to right) that qualifies, and no earlier position qualifies |
| Resolver.ResolveFrameFirst | chess-game.c:631-1012 | the other kinds' result is an on-board qualifying square, and no square before it in row-major order qualifies |
| Resolver.ResolveComplete | chess-game.c:614-617 | a rejection means no square qualifies |
| CheckRules.KingChar | chess-game.c:2037-2042 | the threatened king's marker is a letter, upper case exactly for white |
| CheckRules.PlacedPiece | chess-game.c:2104-2132 | without promotion the destination receives the moving kind in the mover's colour (a letter, upper case exactly for white); a black promotion piece is lower-cased; a white one is placed as written, not upper-cased |
| CheckRules.Simulate | chess-game.c:2124-2135 | after the move the source is empty, the destination holds the placed piece, and no other cell changes |
| CheckRules.SimulateWellFormed | chess-game.c:2124-2135 | a move that places a letter keeps every cell empty or a letter |
| CheckRules.SimulatePieces | chess-game.c:2124-2135 | a move between two squares loses both occupants and gains the placed piece in the count of occupied cells |
| CheckRules.ProbeMove | chess-game.c:2045-2065 | the probe is a legal capture of the threatened king by the given kind, with no hints |
| CheckRules.InCheckHasAttacker | chess-game.c:2021-2076 | check means a king of the threatened colour and a square holding an attacking piece whose validator accepts capturing it |
| CheckRules.IsCheckCase | chess-game.c:2021-2076 | the triple loop returns true exactly when some king of the threatened colour can be captured by a piece of one of the six kinds |
| CheckRules.ProbeSquare | chess-game.c:2059-2071 | a square is reported exactly when it holds the threatened king and some probe kind's resolution is legal |
| CheckRules.FlagsInCheck | chess-game.c:2057-2073 | check holds exactly when some square of the attack grid is set |
| CheckRules.CopyBoard | chess-game.c:2096-2100 | the copy is a fresh array with the board's cells |
| CheckRules.TestBoardCheck | chess-game.c:2089-2147 | copying the board and playing the move on the copy gives the check status of `Simulate`; the caller's board is untouched |
| CheckRules.CheckTrialWithoutDeclare | chess-game.c:2159-2166 | true exactly when the move gives check without declaring check or mate |
| CheckRules.CheckDeclareWithoutTrial | chess-game.c:2178-2185 | true exactly when the move declares check or mate without giving check |
| CheckRules.MoveCauseToCheckThreat | chess-game.c:2198-2207 | true exactly when the given side is in check after the move |
| CheckRules.LimitedMoveInCheckCase | chess-game.c:2228-2242 | true exactly when the given side is in check before and after the move |
| CheckRules.CheckConditions | chess-game.c:1983-2009 | only the legality changes; the move stays legal exactly when check or mate is declared if and only if it gives check, and the mover's own king is not in check afterwards |
| CheckRules.TestCheckConditions | chess-game.c:1983-2009 | the four rules in order yield `CheckConditions` |
| Engine.Mapped | chess-game.c:266-296 | the parsed record starts legal with the mover's colour and the text's piece kind, and its indices are in -1..SIZE-1 |
| Engine.InitMove | chess-game.c:266-303 | the stages in order yield `InitMoveSpec` |
| Engine.InitMoveSound | chess-game.c:266-303 | a legal initialised move has the mover's colour, the text's piece and destination, the destination's occupant, and an on-board source holding the mover's piece that its validator accepts and that equals every mapped hint |
| Engine.AcceptsIgnoresHints | chess-game.c:551-555 | the validators' verdict does not depend on the hint fields |
| Engine.PerformMove | chess-game.c:2255-2290 | the board afterwards is `Simulate` of the board before |
| Engine.Validated | chess-game.c:2304-2317 | a move both stages keep legal has on-board source and destination |
| Engine.ValidatedSound | chess-game.c:2304-2317 | a move `makeMove` plays came from `initMove` unchanged, moves the mover's own piece as its validator allows, declares check exactly when it gives check, and leaves the mover's king out of check |
| Engine.MakeMove | chess-game.c:2304-2317 | returns true exactly when both stages keep the move legal; the board is then the simulated position, and is unchanged otherwise |
| Engine.ValidatedKeepsWellFormed | chess-game.c:2304-2317 | a played move whose promotion piece is a letter keeps every cell empty or a letter |
| Engine.ValidatedPieceCount | chess-game.c:2304-2317 | such a move keeps the number of pieces, or removes exactly one when it declares a capture |
| Fen.Expansion | chess-game.c:160-172 | a digit d stands for d empty cells, any other character for itself |
| Fen.ExpandRowLength | chess-game.c:149-177 | the row holds as many cells as the sum of the digits plus the number of other characters |
| Fen.ExpandRowConcat | chess-game.c:157-175 | expanding two texts in a row expands each in turn |
| Fen.ExpandRowCells | chess-game.c:149-177 | every cell written is empty or a non-digit character of the text |
| Fen.CreateRow | chess-game.c:149-177 | the loop writes `ExpandRow` of the text from column 0 of the row and changes no other cell |
| Fen.WriteExpansion | chess-game.c:161-173 | one text character's cells are written from the given column, and no other cell changes |
| Fen.FillEmpty | chess-game.c:162-165 | the digit loop empties `count` cells from the given column and changes no other cell |
| Fen.ExpandRowStep | chess-game.c:157-175 | one step of the loop: the text from c on expands to character c's cells and then the expansion of the rest |
| Fen.CreateBoard | chess-game.c:200-203 | each board row k starts with `ExpandRow` of row text k; later cells are unchanged |

## Left out

- `printColumns`, `printSpacers`, `printRow`, `printBoard`: output formatting only.
- `createBoard`'s splitting of the FEN text with `strtok`: `Fen.CreateBoard` takes the
  eight row texts as given. `strtok` keeps hidden static state and writes into its input.
- `ass4.h` is not part of this model; only `SIZE` is needed, and it is the constant 8.
- Castling, en passant, stalemate and turn history: the source has none of them.
- Resolver.FindOptionalPieceByMove: when no square qualifies, the source returns the last
  validator result with its source coordinates possibly set to the last rejected
  candidate. The model returns the input move marked illegal. No caller reads the
  coordinates of an illegal move.
- CheckRules.IsCheckCase: the probe move is not promoting. A pawn that attacks a king on the
  pawn's far row is therefore not seen as giving check, because the pawn rules demand a
  promotion there. The source reads an uninitialised flag at this point.
- Fen.CreateRow: a row text whose cells exceed the row is excluded by the precondition,
  because the source would write past the row.
- Engine.InitMove: the board must contain only `' '` and letters, because `isWhiteDest`
  has no result for other characters.
- The C `int` flags are `bool`. The C integer widths do not matter here, because every
  value stays within -1..9.
