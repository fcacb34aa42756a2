/** The engine's entry points: initMove (parse, map, resolve), performMove (the executor)
    and makeMove (both validation stages, then the executor on success). */
module Engine {
  import opened Chess
  import opened Notation
  import opened Validators
  import opened Resolver
  import opened CheckRules

  /** The record after the parse and map stages, before the board is consulted. */
  function Mapped(pgn: seq<char>, isWhiteTurn: bool): (m: Move)
    ensures m.isLegal && m.isWhite == isWhiteTurn && m.srcPiece == SrcPiece(pgn)
    ensures -1 <= m.iSrc < SIZE && -1 <= m.jSrc < SIZE && -1 <= m.iDest < SIZE && -1 <= m.jDest < SIZE
  {
    var parsed := ParsedDest(pgn, ParsedSrc(pgn, FreshMove(isWhiteTurn)));
    parsed.(iSrc := RankToRow(parsed.srcRow), jSrc := FileToColumn(parsed.srcCol),
            iDest := RankToRow(parsed.destRow), jDest := FileToColumn(parsed.destCol))
  }

  /** What initMove returns. A destination the text does not name on the board makes the
      move illegal without consulting the board. */
  ghost function InitMoveSpec(b: Board, pgn: seq<char>, isWhiteTurn: bool): Move
    requires WellFormedCells(b)
  {
    var mapped := Mapped(pgn, isWhiteTurn);
    if InBoard(mapped.iDest, mapped.jDest) then
      var withDest := mapped.(destPiece := b[mapped.iDest][mapped.jDest]);
      Resolve(b, ParsedConditions(pgn, withDest))
    else ParsedConditions(pgn, mapped).(isLegal := false)
  }

  /** The resolver's verdict does not depend on the hint fields of the move it judges. */
  lemma AcceptsIgnoresHints(b: Board, m: Move, i: int, j: int, x: int, y: int)
    requires InBoard(i, j) && Resolvable(m)
    ensures Accepts(b, m.(iSrc := x, jSrc := y), i, j) == Accepts(b, m, i, j)
  {
    var h := m.(iSrc := x, jSrc := y);
    assert h.destPiece == m.destPiece && h.isCapture == m.isCapture && h.isWhite == m.isWhite;
    assert CaptureRulesOk(h) == CaptureRulesOk(m);
    match m.srcPiece {
      case 'R' => assert RookAccepts(b, h, i, j) == RookAccepts(b, m, i, j);
      case 'N' => assert KnightAccepts(h, i, j) == KnightAccepts(m, i, j);
      case 'B' => assert BishopAccepts(b, h, i, j) == BishopAccepts(b, m, i, j);
      case 'Q' => assert QueenAccepts(b, h, i, j) == QueenAccepts(b, m, i, j);
      case 'K' => assert KingAccepts(h, i, j) == KingAccepts(m, i, j);
      case 'P' => assert PawnAccepts(b, h, i, j) == PawnAccepts(b, m, i, j);
      case _ =>
    }
  }

  /** A legal initialised move: the mover's colour, the piece letter and the destination
      named by the text, the destination's occupant, and a source square on the board that
      holds the mover's piece and that the kind's validator accepts; every mapped hint is
      the source coordinate. */
  lemma InitMoveSound(b: Board, pgn: seq<char>, isWhiteTurn: bool)
    requires WellFormedCells(b)
    ensures var r := InitMoveSpec(b, pgn, isWhiteTurn);
      var mapped := Mapped(pgn, isWhiteTurn);
      r.isLegal ==>
        r.isWhite == isWhiteTurn && r.srcPiece == SrcPiece(pgn)
        && r.iDest == mapped.iDest && r.jDest == mapped.jDest
        && InBoard(r.iDest, r.jDest) && InBoard(r.iSrc, r.jSrc)
        && r.destPiece == b[r.iDest][r.jDest] && Resolvable(r)
        && b[r.iSrc][r.jSrc] == ConvertPieceChar(r)
        && Accepts(b, r, r.iSrc, r.jSrc)
        && (mapped.iSrc >= 0 ==> r.iSrc == mapped.iSrc)
        && (mapped.jSrc >= 0 ==> r.jSrc == mapped.jSrc)
  {
    var mapped := Mapped(pgn, isWhiteTurn);
    if InBoard(mapped.iDest, mapped.jDest) {
      var withDest := mapped.(destPiece := b[mapped.iDest][mapped.jDest]);
      var described := ParsedConditions(pgn, withDest);
      ResolveSound(b, described);
      var r := Resolve(b, described);
      if r.isLegal {
        AcceptsIgnoresHints(b, described, r.iSrc, r.jSrc, r.iSrc, r.jSrc);
      }
    }
  }

  method InitMove(board: Board, pgn: seq<char>, isWhiteTurn: bool) returns (r: Move)
    requires WellFormedCells(board)
    ensures r == InitMoveSpec(board, pgn, isWhiteTurn)
  {
    r := FreshMove(isWhiteTurn);
    r := ParseSrcFromPgn(pgn, r);
    r := ParseDestFromPgn(pgn, r);
    r := ConvertSrcMatrixIndex(r);
    r := ConvertDestMatrixIndex(r);
    if !InBoard(r.iDest, r.jDest) {
      r := ParseConditionFromPgn(pgn, r);
      return r.(isLegal := false);
    }
    r := r.(destPiece := FindDestPiece(r.iDest, r.jDest, board));
    r := ParseConditionFromPgn(pgn, r);
    r := FindOptionalPieceByMove(board, r);
  }

  /** performMove: the destination takes the placed piece, then the source is emptied. */
  method PerformMove(board: array2<char>, move: Move)
    modifies board
    requires board.Length0 == SIZE && board.Length1 == SIZE
    requires InBoard(move.iSrc, move.jSrc) && InBoard(move.iDest, move.jDest)
    ensures Cells(board) == Simulate(old(Cells(board)), move)
  {
    ghost var before := Cells(board);
    var placedChar := PlacedPiece(move);
    board[move.iDest, move.jDest] := placedChar;
    board[move.iSrc, move.jSrc] := EMPTY;
    SameCells(Cells(board), Simulate(before, move));
  }

  /** Both validation stages: the initialised move, then, when it is still legal, the
      check/mate consistency rules. */
  ghost function Validated(b: Board, pgn: seq<char>, isWhiteTurn: bool): (r: Move)
    requires WellFormedCells(b)
    ensures r.isLegal ==> InBoard(r.iSrc, r.jSrc) && InBoard(r.iDest, r.jDest)
  {
    var m := InitMoveSpec(b, pgn, isWhiteTurn);
    InitMoveSound(b, pgn, isWhiteTurn);
    if m.isLegal then CheckConditions(b, m) else m
  }

  /** A validated move is one the resolver found and the consistency rules kept: its
      source holds the mover's piece, the validator accepted it, its check or mate
      declaration agrees with the position it produces, and it leaves the mover's own
      king out of check. */
  lemma ValidatedSound(b: Board, pgn: seq<char>, isWhiteTurn: bool)
    requires WellFormedCells(b)
    ensures var r := Validated(b, pgn, isWhiteTurn);
      r.isLegal ==>
        r == InitMoveSpec(b, pgn, isWhiteTurn)
        && r.isWhite == isWhiteTurn
        && Resolvable(r) && b[r.iSrc][r.jSrc] == ConvertPieceChar(r)
        && Accepts(b, r, r.iSrc, r.jSrc)
        && ((r.isCheck || r.isMate) <==> InCheck(Simulate(b, r), isWhiteTurn, !isWhiteTurn))
        && !InCheck(Simulate(b, r), !isWhiteTurn, isWhiteTurn)
  {
    InitMoveSound(b, pgn, isWhiteTurn);
  }

  /** makeMove: on success the board is the simulated position of the validated move;
      otherwise the board is left as it was. */
  method MakeMove(board: array2<char>, pgn: seq<char>, isWhiteTurn: bool) returns (ok: bool)
    modifies board
    requires board.Length0 == SIZE && board.Length1 == SIZE
    requires WellFormedCells(Cells(board))
    ensures ok == Validated(old(Cells(board)), pgn, isWhiteTurn).isLegal
    ensures ok ==> Cells(board) == Simulate(old(Cells(board)), Validated(old(Cells(board)), pgn, isWhiteTurn))
    ensures !ok ==> unchanged(board)
  {
    var move := InitMove(Cells(board), pgn, isWhiteTurn);
    InitMoveSound(Cells(board), pgn, isWhiteTurn);
    if move.isLegal {
      move := TestCheckConditions(board, move);
    }
    if move.isLegal {
      PerformMove(board, move);
      return true;
    }
    return false;
  }

  /** A successful move keeps the board well formed when the piece it places is a letter. */
  lemma ValidatedKeepsWellFormed(b: Board, pgn: seq<char>, isWhiteTurn: bool)
    requires WellFormedCells(b)
    requires var r := Validated(b, pgn, isWhiteTurn); r.isLegal && (r.isPromotion ==> IsLetter(r.promotionPiece))
    ensures WellFormedCells(Simulate(b, Validated(b, pgn, isWhiteTurn)))
  {
    InitMoveSound(b, pgn, isWhiteTurn);
    SimulateWellFormed(b, Validated(b, pgn, isWhiteTurn));
  }

  /** A validated move keeps the number of pieces, or removes exactly one when it declares
      a capture: the source holds the mover's piece, the destination is EMPTY (no capture)
      or holds an opponent piece (capture), so the two squares differ. */
  lemma ValidatedPieceCount(b: Board, pgn: seq<char>, isWhiteTurn: bool)
    requires WellFormedCells(b)
    requires var r := Validated(b, pgn, isWhiteTurn); r.isLegal && (r.isPromotion ==> IsLetter(r.promotionPiece))
    ensures var r := Validated(b, pgn, isWhiteTurn);
      BoardPieces(Simulate(b, r)) == BoardPieces(b) - (if r.isCapture then 1 else 0)
  {
    ValidatedSound(b, pgn, isWhiteTurn);
    InitMoveSound(b, pgn, isWhiteTurn);
    var r := Validated(b, pgn, isWhiteTurn);
    assert KindOk(r.srcPiece) && CaptureRulesOk(r);
    var own := b[r.iSrc][r.jSrc];
    assert IsLetter(own) && (IsUpper(own) <==> isWhiteTurn);
    assert r.destPiece == b[r.iDest][r.jDest];
    assert r.iSrc != r.iDest || r.jSrc != r.jDest;
    assert Occupied(PlacedPiece(r)) == 1;
    SimulatePieces(b, r);
  }
}
