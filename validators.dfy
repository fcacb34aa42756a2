/** The movement validators: checkRookMove ... checkPawnMove and the three capture/colour
    predicates. Each validator returns the move unchanged when the candidate source square
    passes and the move with isLegal cleared otherwise; which candidates pass is stated by
    a declarative predicate per piece kind. */
module Validators {
  import opened Chess

  /** The destination occupant is something isWhiteDest is defined on, or EMPTY. */
  predicate DestOk(m: Move)
  {
    m.destPiece == EMPTY || IsLetter(m.destPiece)
  }

  /** isWhiteDest: upper case is white, lower case black (undefined on non-letters). */
  function IsWhiteDest(destPiece: char): (w: bool)
    requires IsLetter(destPiece)
    ensures w <==> IsUpper(destPiece)
  {
    if IsLower(destPiece) then false else true
  }

  /** A piece of the colour opposite to the mover's. */
  predicate IsOpponentPiece(c: char, isWhite: bool)
  {
    IsLetter(c) && IsUpper(c) != isWhite
  }

  /** sameColorPieceTest: the destination holds a piece of the mover's colour. */
  function SameColorPieceTest(destPiece: char, isWhite: bool): (r: bool)
    requires destPiece == EMPTY || IsLetter(destPiece)
    ensures r <==> IsLetter(destPiece) && IsUpper(destPiece) == isWhite
  {
    if destPiece != EMPTY then
      (if isWhite then IsWhiteDest(destPiece) else !IsWhiteDest(destPiece))
    else false
  }

  /** noCaptureDestTest: a capture is declared but the destination is empty. */
  function NoCaptureDestTest(isCapture: bool, destPiece: char): (r: bool)
    ensures r ==> destPiece == EMPTY
    ensures !isCapture ==> !r
    ensures isCapture && destPiece == EMPTY ==> r
  {
    isCapture && destPiece == EMPTY
  }

  /** noCaptureDeclareTest: the destination holds an opponent's piece but no capture was declared. */
  function NoCaptureDeclareTest(destPiece: char, isWhite: bool, isCapture: bool): (r: bool)
    requires destPiece == EMPTY || IsLetter(destPiece)
    ensures r <==> IsOpponentPiece(destPiece, isWhite) && !isCapture
  {
    if destPiece != EMPTY then
      (if isWhite then !IsWhiteDest(destPiece) && !isCapture
       else IsWhiteDest(destPiece) && !isCapture)
    else false
  }

  /** The three tests every validator runs after its geometry, in the source's order. A move
      passes exactly when it is a quiet move to an empty square or a declared capture of an
      opponent's piece. */
  function CaptureRulesOk(m: Move): (ok: bool)
    requires DestOk(m)
    ensures ok <==> ((m.destPiece == EMPTY && !m.isCapture)
                     || (IsOpponentPiece(m.destPiece, m.isWhite) && m.isCapture))
  {
    !NoCaptureDestTest(m.isCapture, m.destPiece)
    && !SameColorPieceTest(m.destPiece, m.isWhite)
    && !NoCaptureDeclareTest(m.destPiece, m.isWhite, m.isCapture)
  }

  // ---------------------------------------------------------------- geometry

  predicate IsStraight(i0: int, j0: int, i1: int, j1: int) { i0 == i1 || j0 == j1 }

  predicate IsDiagonal(i0: int, j0: int, i1: int, j1: int) { Abs(i1 - i0) == Abs(j1 - j0) }

  /** Every square strictly between (i0, j0) and (i1, j1) on their common row or column is
      EMPTY (trivially true for squares on neither). */
  ghost predicate StraightClear(b: Board, i0: int, j0: int, i1: int, j1: int)
    requires InBoard(i0, j0) && InBoard(i1, j1)
  {
    if i0 == i1 then forall c :: Min(j0, j1) < c < Max(j0, j1) ==> b[i0][c] == EMPTY
    else if j0 == j1 then forall r :: Min(i0, i1) < r < Max(i0, i1) ==> b[r][j0] == EMPTY
    else true
  }

  /** The coordinate t steps from `from` towards `to`. */
  function Step(from: int, to: int, t: int): int
  {
    if to > from then from + t else from - t
  }

  /** Every square strictly between two squares on a common diagonal is EMPTY. */
  ghost predicate DiagonalClear(b: Board, i0: int, j0: int, i1: int, j1: int)
    requires InBoard(i0, j0) && InBoard(i1, j1) && IsDiagonal(i0, j0, i1, j1)
  {
    forall t :: 0 < t < Abs(i1 - i0) ==> b[Step(i0, i1, t)][Step(j0, j1, t)] == EMPTY
  }

  /** The straight-line clear-way loops of checkRookMove and checkQueenMove. */
  method CheckStraightPath(board: Board, i0: int, j0: int, i1: int, j1: int) returns (clear: bool)
    requires InBoard(i0, j0) && InBoard(i1, j1)
    ensures clear == StraightClear(board, i0, j0, i1, j1)
  {
    if i1 == i0 {
      var lo, hi := Min(j0, j1), Max(j0, j1);
      var j := lo + 1;
      while j < hi
        invariant lo + 1 <= j <= Max(hi, lo + 1)
        invariant forall c :: lo < c < j ==> board[i0][c] == EMPTY
      {
        if board[i0][j] != EMPTY {
          return false;
        }
        j := j + 1;
      }
    } else if j1 == j0 {
      var lo, hi := Min(i0, i1), Max(i0, i1);
      var i := lo + 1;
      while i < hi
        invariant lo + 1 <= i <= Max(hi, lo + 1)
        invariant forall r :: lo < r < i ==> board[r][j0] == EMPTY
      {
        if board[i][j0] != EMPTY {
          return false;
        }
        i := i + 1;
      }
    }
    return true;
  }

  /** The four diagonal clear-way loops of checkBishopMove and checkQueenMove, one per direction. */
  method CheckDiagonalPath(board: Board, i0: int, j0: int, i1: int, j1: int) returns (clear: bool)
    requires InBoard(i0, j0) && InBoard(i1, j1) && IsDiagonal(i0, j0, i1, j1)
    ensures clear == DiagonalClear(board, i0, j0, i1, j1)
  {
    var d := Abs(i1 - i0);
    var t := 1;
    while t < d
      invariant 1 <= t <= Max(d, 1)
      invariant forall u :: 0 < u < t ==> board[Step(i0, i1, u)][Step(j0, j1, u)] == EMPTY
    {
      var row, column := Step(i0, i1, t), Step(j0, j1, t);
      if board[row][column] != EMPTY {
        return false;
      }
      t := t + 1;
    }
    return true;
  }

  // ---------------------------------------------------------------- acceptance per kind

  /** Rook: same row or column, clear way, capture rules. */
  ghost predicate RookAccepts(b: Board, m: Move, i: int, j: int)
    requires InBoard(i, j) && InBoard(m.iDest, m.jDest) && DestOk(m)
  {
    IsStraight(i, j, m.iDest, m.jDest) && StraightClear(b, i, j, m.iDest, m.jDest) && CaptureRulesOk(m)
  }

  /** Bishop: common diagonal, clear way, capture rules. */
  ghost predicate BishopAccepts(b: Board, m: Move, i: int, j: int)
    requires InBoard(i, j) && InBoard(m.iDest, m.jDest) && DestOk(m)
  {
    IsDiagonal(i, j, m.iDest, m.jDest) && DiagonalClear(b, i, j, m.iDest, m.jDest) && CaptureRulesOk(m)
  }

  /** Queen: either line shape with that line clear, capture rules. */
  ghost predicate QueenAccepts(b: Board, m: Move, i: int, j: int)
    requires InBoard(i, j) && InBoard(m.iDest, m.jDest) && DestOk(m)
  {
    (IsStraight(i, j, m.iDest, m.jDest) || IsDiagonal(i, j, m.iDest, m.jDest))
    && StraightClear(b, i, j, m.iDest, m.jDest)
    && (IsDiagonal(i, j, m.iDest, m.jDest) ==> DiagonalClear(b, i, j, m.iDest, m.jDest))
    && CaptureRulesOk(m)
  }

  /** The knight's offsets: two and one, in either order. */
  predicate KnightShape(di: int, dj: int)
  {
    (Abs(di) == 2 && Abs(dj) == 1) || (Abs(di) == 1 && Abs(dj) == 2)
  }

  predicate KnightAccepts(m: Move, i: int, j: int)
    requires DestOk(m)
  {
    KnightShape(m.iDest - i, m.jDest - j) && CaptureRulesOk(m)
  }

  predicate KingAccepts(m: Move, i: int, j: int)
    requires DestOk(m)
  {
    Abs(m.iDest - i) <= 1 && Abs(m.jDest - j) <= 1 && CaptureRulesOk(m)
  }

  /** The pawn's shape. White moves towards row 0, black towards row SIZE - 1. A quiet move
      keeps its column and goes at most one row forward, or two from the pawn's start row
      (SIZE - 2 for white, 1 for black); a capture is one diagonal step forward; reaching the
      far row needs a declared promotion. */
  predicate PawnShape(m: Move, i: int, j: int)
  {
    if m.isWhite then
      (m.iDest == 0 ==> m.isPromotion) &&
      (if !m.isCapture then j == m.jDest && (0 <= i - m.iDest <= 1 || (i - m.iDest == 2 && i == SIZE - 2))
       else m.iDest == i - 1 && Abs(m.jDest - j) == 1)
    else
      (m.iDest == SIZE - 1 ==> m.isPromotion) &&
      (if !m.isCapture then j == m.jDest && (0 <= m.iDest - i <= 1 || (m.iDest - i == 2 && i == 1))
       else m.iDest == i + 1 && Abs(m.jDest - j) == 1)
  }

  /** The square a two-step pawn move jumps over is EMPTY. */
  predicate PawnWayClear(b: Board, m: Move, i: int)
    requires InBoard(m.iDest, m.jDest)
  {
    if m.isWhite then (i == SIZE - 2 && m.iDest == SIZE - 4 ==> b[SIZE - 3][m.jDest] == EMPTY)
    else (i == 1 && m.iDest == 3 ==> b[2][m.jDest] == EMPTY)
  }

  predicate PawnAccepts(b: Board, m: Move, i: int, j: int)
    requires InBoard(m.iDest, m.jDest) && DestOk(m)
  {
    PawnShape(m, i, j) && PawnWayClear(b, m, i) && CaptureRulesOk(m)
  }

  // ---------------------------------------------------------------- the validators

  /** The three capture and colour tests every validator ends with, in the source's order. */
  function CaptureVerdict(move: Move): (r: Move)
    requires DestOk(move)
    ensures r == Verdict(move, CaptureRulesOk(move))
  {
    if NoCaptureDestTest(move.isCapture, move.destPiece) then Verdict(move, false)
    else if SameColorPieceTest(move.destPiece, move.isWhite) then Verdict(move, false)
    else if NoCaptureDeclareTest(move.destPiece, move.isWhite, move.isCapture) then Verdict(move, false)
    else Verdict(move, true)
  }

  /** The result of a validator: the move itself, or the move marked illegal. */
  function Verdict(m: Move, accepted: bool): Move
  {
    m.(isLegal := m.isLegal && accepted)
  }

  method CheckRookMove(board: Board, move: Move, iOptSrc: int, jOptSrc: int) returns (r: Move)
    requires InBoard(iOptSrc, jOptSrc) && InBoard(move.iDest, move.jDest) && DestOk(move)
    ensures r == Verdict(move, RookAccepts(board, move, iOptSrc, jOptSrc))
  {
    var clear := CheckStraightPath(board, iOptSrc, jOptSrc, move.iDest, move.jDest);
    if !clear {
      return Verdict(move, false);
    }
    if move.iDest != iOptSrc && move.jDest != jOptSrc {
      return Verdict(move, false);
    }
    return CaptureVerdict(move);
  }

  function CheckKnightMove(board: Board, move: Move, iOptSrc: int, jOptSrc: int): (r: Move)
    requires DestOk(move)
    ensures r == Verdict(move, KnightAccepts(move, iOptSrc, jOptSrc))
  {
    var rowL := Abs(move.iDest - iOptSrc) == 2 && Abs(move.jDest - jOptSrc) == 1;
    var colL := Abs(move.iDest - iOptSrc) == 1 && Abs(move.jDest - jOptSrc) == 2;
    if !rowL && !colL then Verdict(move, false)
    else CaptureVerdict(move)
  }

  method CheckBishopMove(board: Board, move: Move, iOptSrc: int, jOptSrc: int) returns (r: Move)
    requires InBoard(iOptSrc, jOptSrc) && InBoard(move.iDest, move.jDest) && DestOk(move)
    ensures r == Verdict(move, BishopAccepts(board, move, iOptSrc, jOptSrc))
  {
    if !IsDiagonal(iOptSrc, jOptSrc, move.iDest, move.jDest) {
      return Verdict(move, false);
    }
    var clear := CheckDiagonalPath(board, iOptSrc, jOptSrc, move.iDest, move.jDest);
    if !clear {
      return Verdict(move, false);
    }
    return CaptureVerdict(move);
  }

  method CheckQueenMove(board: Board, move: Move, iOptSrc: int, jOptSrc: int) returns (r: Move)
    requires InBoard(iOptSrc, jOptSrc) && InBoard(move.iDest, move.jDest) && DestOk(move)
    ensures r == Verdict(move, QueenAccepts(board, move, iOptSrc, jOptSrc))
  {
    var illegalMovementCounter := 0;
    if move.iDest != iOptSrc && move.jDest != jOptSrc {
      illegalMovementCounter := illegalMovementCounter + 1;
    }
    var isDiagonal := IsDiagonal(iOptSrc, jOptSrc, move.iDest, move.jDest);
    if !isDiagonal {
      illegalMovementCounter := illegalMovementCounter + 1;
    }
    if illegalMovementCounter == 2 {
      return Verdict(move, false);
    }
    var clear := CheckStraightPath(board, iOptSrc, jOptSrc, move.iDest, move.jDest);
    if !clear {
      return Verdict(move, false);
    }
    if isDiagonal {
      clear := CheckDiagonalPath(board, iOptSrc, jOptSrc, move.iDest, move.jDest);
      if !clear {
        return Verdict(move, false);
      }
    }
    return CaptureVerdict(move);
  }

  function CheckKingMove(board: Board, move: Move, iOptSrc: int, jOptSrc: int): (r: Move)
    requires DestOk(move)
    ensures r == Verdict(move, KingAccepts(move, iOptSrc, jOptSrc))
  {
    var rowCheck := Abs(move.iDest - iOptSrc) == 0 || Abs(move.iDest - iOptSrc) == 1;
    var colCheck := Abs(move.jDest - jOptSrc) == 0 || Abs(move.jDest - jOptSrc) == 1;
    if !rowCheck || !colCheck then Verdict(move, false)
    else CaptureVerdict(move)
  }

  /** The movement test of checkPawnMove, in the source's order of rejections. */
  function PawnMovementTest(move: Move, iOptSrc: int, jOptSrc: int): (ok: bool)
    ensures ok == PawnShape(move, iOptSrc, jOptSrc)
  {
    if move.isWhite then
      if move.iDest == 0 && !move.isPromotion then false
      else if !move.isCapture then
        if move.iDest > iOptSrc || jOptSrc != move.jDest then false
        else if iOptSrc == SIZE - 2 then !(iOptSrc - move.iDest > 2 || jOptSrc != move.jDest)
        else !(iOptSrc - move.iDest > 1 || jOptSrc != move.jDest)
      else
        move.iDest == iOptSrc - 1 && (move.jDest == jOptSrc + 1 || move.jDest == jOptSrc - 1)
    else
      if move.iDest == SIZE - 1 && !move.isPromotion then false
      else if !move.isCapture then
        if move.iDest < iOptSrc then false
        else if iOptSrc == 1 then !(move.iDest - iOptSrc > 2 || jOptSrc != move.jDest)
        else !(move.iDest - iOptSrc > 1 || jOptSrc != move.jDest)
      else
        move.iDest == iOptSrc + 1 && (move.jDest == jOptSrc + 1 || move.jDest == jOptSrc - 1)
  }

  function CheckPawnMove(board: Board, move: Move, iOptSrc: int, jOptSrc: int): (r: Move)
    requires InBoard(move.iDest, move.jDest) && DestOk(move)
    ensures r == Verdict(move, PawnAccepts(board, move, iOptSrc, jOptSrc))
  {
    if !PawnMovementTest(move, iOptSrc, jOptSrc) then Verdict(move, false)
    else if move.isWhite && iOptSrc == SIZE - 2 && move.iDest == SIZE - 4
            && board[SIZE - 3][move.jDest] != EMPTY then Verdict(move, false)
    else if !move.isWhite && iOptSrc == 1 && move.iDest == 3
            && board[2][move.jDest] != EMPTY then Verdict(move, false)
    else CaptureVerdict(move)
  }

  // ---------------------------------------------------------------- properties

  /** The knight accepts exactly the eight knight offsets. */
  lemma KnightOffsets(di: int, dj: int)
    ensures KnightShape(di, dj) <==>
      (di, dj) in {(2, 1), (2, -1), (-2, 1), (-2, -1), (1, 2), (1, -2), (-1, 2), (-1, -2)}
  {
  }

  /** A pawn that advances (as every candidate the resolver offers does) moves forward by
      one row, or by two from its start row over an empty square, in its own column when
      quiet; a capture is one diagonal step; the far row needs a promotion. */
  lemma PawnAdvance(b: Board, m: Move, i: int, j: int)
    requires InBoard(i, j) && InBoard(m.iDest, m.jDest) && DestOk(m)
    requires PawnAccepts(b, m, i, j)
    requires if m.isWhite then i > m.iDest else i < m.iDest
    ensures var forward := if m.isWhite then i - m.iDest else m.iDest - i;
      var start := if m.isWhite then SIZE - 2 else 1;
      var far := if m.isWhite then 0 else SIZE - 1;
      (m.iDest == far ==> m.isPromotion) &&
      (!m.isCapture ==>
         (j == m.jDest && m.destPiece == EMPTY &&
          (forward == 1 || (forward == 2 && i == start && b[(i + m.iDest) / 2][j] == EMPTY)))) &&
      (m.isCapture ==> forward == 1 && Abs(m.jDest - j) == 1 && IsOpponentPiece(m.destPiece, m.isWhite))
  {
  }
}
