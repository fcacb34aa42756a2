/** The move simulator, the threat detector and the check/mate consistency rules:
    testBoardCheck, isCheckCase, the four rule predicates and testCheckConditions. */
module CheckRules {
  import opened Chess
  import opened Validators
  import opened Resolver

  /** The piece kinds the threat detector tries against a king, in the source's order. */
  const PROBE_KINDS: seq<char> := ['R', 'B', 'N', 'Q', 'K', 'P']

  /** The board marker of the king of the threatened colour. */
  function KingChar(threatToWhite: bool): (c: char)
    ensures IsLetter(c) && (IsUpper(c) <==> threatToWhite)
  {
    if threatToWhite then 'K' else ToLower('K')
  }

  // ---------------------------------------------------------------- move simulator

  /** The marker the move leaves on its destination: the promotion piece when promoting,
      otherwise the moving piece, lower case for black. A white promotion piece is placed
      as written, without upper-casing. */
  function PlacedPiece(m: Move): (c: char)
    ensures !m.isPromotion && IsUpper(m.srcPiece) ==>
              IsLetter(c) && (IsUpper(c) <==> m.isWhite) && ToUpper(c) == m.srcPiece
    ensures m.isPromotion && !m.isWhite && IsLetter(m.promotionPiece) ==>
              IsLower(c) && ToUpper(c) == ToUpper(m.promotionPiece)
    ensures m.isPromotion && m.isWhite ==> c == m.promotionPiece
  {
    if m.isPromotion then (if m.isWhite then m.promotionPiece else ToLower(m.promotionPiece))
    else ConvertPieceChar(m)
  }

  /** The board after the move: the destination takes the placed piece, then the source is
      emptied (so the source wins when the two coincide); no other cell changes. */
  function Simulate(b: Board, m: Move): (a: Board)
    requires InBoard(m.iSrc, m.jSrc) && InBoard(m.iDest, m.jDest)
    ensures a[m.iSrc][m.jSrc] == EMPTY
    ensures (m.iSrc != m.iDest || m.jSrc != m.jDest) ==> a[m.iDest][m.jDest] == PlacedPiece(m)
    ensures forall i, j :: InBoard(i, j) && !(i == m.iSrc && j == m.jSrc) && !(i == m.iDest && j == m.jDest)
              ==> a[i][j] == b[i][j]
  {
    var placed := b[m.iDest := b[m.iDest][m.jDest := PlacedPiece(m)]];
    placed[m.iSrc := placed[m.iSrc][m.jSrc := EMPTY]]
  }

  /** A simulated move keeps every cell EMPTY or a letter when the pieces it places are letters. */
  lemma SimulateWellFormed(b: Board, m: Move)
    requires InBoard(m.iSrc, m.jSrc) && InBoard(m.iDest, m.jDest)
    requires WellFormedCells(b) && IsLetter(m.srcPiece)
    requires m.isPromotion ==> IsLetter(m.promotionPiece)
    ensures WellFormedCells(Simulate(b, m))
  {
    var a := Simulate(b, m);
    forall i, j | InBoard(i, j) ensures a[i][j] == EMPTY || IsLetter(a[i][j]) {
      if i == m.iSrc && j == m.jSrc {
      } else if i == m.iDest && j == m.jDest {
        assert a[i][j] == PlacedPiece(m);
        if m.isPromotion {
          assert IsLetter(ToLower(m.promotionPiece));
        } else {
          assert IsLetter(ConvertPieceChar(m));
        }
      } else {
        assert a[i][j] == b[i][j];
      }
    }
  }

  /** 1 for an occupied cell, 0 for an EMPTY one. */
  function Occupied(c: char): nat
  {
    if c == EMPTY then 0 else 1
  }

  /** The number of occupied cells of a row. */
  function RowPieces(row: seq<char>): nat
  {
    if |row| == 0 then 0 else Occupied(row[0]) + RowPieces(row[1..])
  }

  /** The number of occupied cells of a board. */
  function BoardPieces(rows: seq<seq<char>>): nat
  {
    if |rows| == 0 then 0 else RowPieces(rows[0]) + BoardPieces(rows[1..])
  }

  /** Writing one cell changes the row's count by the difference of the two occupants. */
  lemma {:induction false} RowPiecesUpdate(row: seq<char>, j: int, c: char)
    requires 0 <= j < |row|
    ensures RowPieces(row[j := c]) == RowPieces(row) - Occupied(row[j]) + Occupied(c)
    decreases |row|
  {
    if j > 0 {
      assert row[j := c][1..] == row[1..][j - 1 := c];
      RowPiecesUpdate(row[1..], j - 1, c);
    } else {
      assert row[j := c][1..] == row[1..];
    }
  }

  /** Replacing one row changes the board's count by the difference of the two rows' counts. */
  lemma {:induction false} BoardPiecesUpdate(rows: seq<seq<char>>, i: int, row: seq<char>)
    requires 0 <= i < |rows|
    ensures BoardPieces(rows[i := row]) == BoardPieces(rows) - RowPieces(rows[i]) + RowPieces(row)
    decreases |rows|
  {
    if i > 0 {
      assert rows[i := row][1..] == rows[1..][i - 1 := row];
      BoardPiecesUpdate(rows[1..], i - 1, row);
    } else {
      assert rows[i := row][1..] == rows[1..];
    }
  }

  /** A move between two distinct squares loses the occupants of both and gains the placed
      piece. */
  lemma SimulatePieces(b: Board, m: Move)
    requires InBoard(m.iSrc, m.jSrc) && InBoard(m.iDest, m.jDest)
    requires m.iSrc != m.iDest || m.jSrc != m.jDest
    ensures BoardPieces(Simulate(b, m)) == BoardPieces(b) - Occupied(b[m.iSrc][m.jSrc])
              - Occupied(b[m.iDest][m.jDest]) + Occupied(PlacedPiece(m))
  {
    var placed := b[m.iDest := b[m.iDest][m.jDest := PlacedPiece(m)]];
    BoardPiecesUpdate(b, m.iDest, b[m.iDest][m.jDest := PlacedPiece(m)]);
    RowPiecesUpdate(b[m.iDest], m.jDest, PlacedPiece(m));
    assert placed[m.iSrc][m.jSrc] == b[m.iSrc][m.jSrc];
    BoardPiecesUpdate(placed, m.iSrc, placed[m.iSrc][m.jSrc := EMPTY]);
    RowPiecesUpdate(placed[m.iSrc], m.jSrc, EMPTY);
  }

  // ---------------------------------------------------------------- threat detector

  /** The probe move isCheckCase hands the resolver: a capture of the threatened king on
      (i, j) by a piece of kind PROBE_KINDS[z] of the attacking colour, with no hints. The
      source leaves the legality and promotion flags of the probe uninitialised; here the
      probe starts legal and not promoting. */
  function ProbeMove(attackerWhite: bool, threatToWhite: bool, i: int, j: int, z: int): (m: Move)
    requires InBoard(i, j) && 0 <= z < |PROBE_KINDS|
    ensures Resolvable(m) && m.isLegal && m.isCapture && m.iSrc == -1 && m.jSrc == -1
    ensures m.srcPiece == PROBE_KINDS[z] && m.isWhite == attackerWhite
    ensures m.destPiece == KingChar(threatToWhite) && m.iDest == i && m.jDest == j
  {
    FreshMove(attackerWhite).(destPiece := KingChar(threatToWhite), isCapture := true,
                              iDest := i, jDest := j, srcPiece := PROBE_KINDS[z])
  }

  /** The king of the threatened colour stands on (i, j) and a piece of kind PROBE_KINDS[z]
      of the attacking colour could legally capture it. */
  ghost predicate Attacks(b: Board, attackerWhite: bool, threatToWhite: bool, i: int, j: int, z: int)
    requires InBoard(i, j) && 0 <= z < |PROBE_KINDS|
  {
    b[i][j] == KingChar(threatToWhite) && Resolve(b, ProbeMove(attackerWhite, threatToWhite, i, j, z)).isLegal
  }

  /** The king of the threatened colour on (i, j) is attacked by some probe kind. */
  ghost predicate KingAttacked(b: Board, attackerWhite: bool, threatToWhite: bool, i: int, j: int)
    requires InBoard(i, j)
  {
    exists z :: 0 <= z < |PROBE_KINDS| && Attacks(b, attackerWhite, threatToWhite, i, j, z)
  }

  /** Some king of the threatened colour is attacked. */
  ghost predicate InCheck(b: Board, attackerWhite: bool, threatToWhite: bool)
  {
    exists i, j :: InBoard(i, j) && KingAttacked(b, attackerWhite, threatToWhite, i, j)
  }

  /** Which squares hold an attacked king. */
  ghost function AttackFlags(b: Board, attackerWhite: bool, threatToWhite: bool): (g: seq<seq<bool>>)
    ensures IsGrid(g)
  {
    seq(SIZE, i requires 0 <= i < SIZE =>
      seq(SIZE, j requires 0 <= j < SIZE => KingAttacked(b, attackerWhite, threatToWhite, i, j)))
  }

  /** Check means a real attacker: a square holding an attacking piece, accepted by that
      kind's validator as a capture of a threatened king. */
  lemma InCheckHasAttacker(b: Board, attackerWhite: bool, threatToWhite: bool)
    requires InCheck(b, attackerWhite, threatToWhite)
    ensures exists i, j, z, x, y :: InBoard(i, j) && 0 <= z < |PROBE_KINDS| && InBoard(x, y)
              && b[i][j] == KingChar(threatToWhite)
              && b[x][y] == ConvertPieceChar(ProbeMove(attackerWhite, threatToWhite, i, j, z))
              && Accepts(b, ProbeMove(attackerWhite, threatToWhite, i, j, z), x, y)
  {
    var i, j :| InBoard(i, j) && KingAttacked(b, attackerWhite, threatToWhite, i, j);
    var z :| 0 <= z < |PROBE_KINDS| && Attacks(b, attackerWhite, threatToWhite, i, j, z);
    var m := ProbeMove(attackerWhite, threatToWhite, i, j, z);
    ResolveSound(b, m);
    var r := Resolve(b, m);
    assert InBoard(r.iSrc, r.jSrc) && b[r.iSrc][r.jSrc] == ConvertPieceChar(m) && Accepts(b, m, r.iSrc, r.jSrc);
  }

  /** A board with no king of the threatened colour is never in check. */
  lemma NoKingNoCheck(b: Board, attackerWhite: bool, threatToWhite: bool)
    requires forall i, j :: InBoard(i, j) ==> b[i][j] != KingChar(threatToWhite)
    ensures !InCheck(b, attackerWhite, threatToWhite)
  {
  }

  /** isCheckCase: every square in row-major order, every probe kind. */
  method IsCheckCase(board: Board, isWhiteMove: bool, isThreatToWhite: bool) returns (r: bool)
    ensures r == InCheck(board, isWhiteMove, isThreatToWhite)
  {
    ghost var g := AttackFlags(board, isWhiteMove, isThreatToWhite);
    for i := 0 to SIZE
      invariant forall x, y :: InBoard(x, y) && x < i ==> !g[x][y]
    {
      for j := 0 to SIZE
        invariant forall x, y :: InBoard(x, y) && LexLess(x, y, i, j) ==> !g[x][y]
      {
        var attacked := ProbeSquare(board, isWhiteMove, isThreatToWhite, i, j);
        if attacked {
          FlagsInCheck(board, isWhiteMove, isThreatToWhite);
          return true;
        }
      }
    }
    FlagsInCheck(board, isWhiteMove, isThreatToWhite);
    return false;
  }

  /** Check is a set flag of the attack grid. */
  lemma FlagsInCheck(b: Board, attackerWhite: bool, threatToWhite: bool)
    ensures InCheck(b, attackerWhite, threatToWhite) <==>
              exists x, y :: InBoard(x, y) && AttackFlags(b, attackerWhite, threatToWhite)[x][y]
  {
    var g := AttackFlags(b, attackerWhite, threatToWhite);
    if InCheck(b, attackerWhite, threatToWhite) {
      var x, y :| InBoard(x, y) && KingAttacked(b, attackerWhite, threatToWhite, x, y);
      assert g[x][y];
    }
    if exists x, y :: InBoard(x, y) && g[x][y] {
      var x, y :| InBoard(x, y) && g[x][y];
      assert KingAttacked(b, attackerWhite, threatToWhite, x, y);
    }
  }

  /** The body of isCheckCase's square loop: when (i, j) holds the threatened king, each
      probe kind in turn is offered to the resolver. */
  method ProbeSquare(board: Board, isWhiteMove: bool, isThreatToWhite: bool, i: int, j: int) returns (r: bool)
    requires InBoard(i, j)
    ensures r == KingAttacked(board, isWhiteMove, isThreatToWhite, i, j)
  {
    if board[i][j] != KingChar(isThreatToWhite) {
      return false;
    }
    for z := 0 to |PROBE_KINDS|
      invariant forall w :: 0 <= w < z ==> !Attacks(board, isWhiteMove, isThreatToWhite, i, j, w)
    {
      var optionalMove := ProbeMove(isWhiteMove, isThreatToWhite, i, j, z);
      var updatedMove := FindOptionalPieceByMove(board, optionalMove);
      if updatedMove.isLegal {
        assert Attacks(board, isWhiteMove, isThreatToWhite, i, j, z);
        return true;
      }
    }
    return false;
  }

  /** testBoardCheck: is there check after the move, on a copy of the board. */
  method TestBoardCheck(board: array2<char>, move: Move, isWhiteMove: bool, isThreatToWhite: bool) returns (r: bool)
    requires board.Length0 == SIZE && board.Length1 == SIZE
    requires InBoard(move.iSrc, move.jSrc) && InBoard(move.iDest, move.jDest)
    ensures r == InCheck(Simulate(Cells(board), move), isWhiteMove, isThreatToWhite)
  {
    var copied := CopyBoard(board);
    var placedChar := PlacedPiece(move);
    copied[move.iDest, move.jDest] := placedChar;
    copied[move.iSrc, move.jSrc] := EMPTY;
    SameCells(Cells(copied), Simulate(Cells(board), move));
    r := IsCheckCase(Cells(copied), isWhiteMove, isThreatToWhite);
  }

  /** The copy testBoardCheck works on: a fresh array with the board's cells. */
  method CopyBoard(board: array2<char>) returns (copied: array2<char>)
    requires board.Length0 == SIZE && board.Length1 == SIZE
    ensures fresh(copied) && copied.Length0 == SIZE && copied.Length1 == SIZE
    ensures forall x, y :: InBoard(x, y) ==> copied[x, y] == board[x, y]
  {
    copied := new char[SIZE, SIZE];
    for i := 0 to SIZE
      invariant forall x, y :: 0 <= x < i && 0 <= y < SIZE ==> copied[x, y] == board[x, y]
    {
      for j := 0 to SIZE
        invariant forall x, y :: 0 <= x < i && 0 <= y < SIZE ==> copied[x, y] == board[x, y]
        invariant forall y :: 0 <= y < j ==> copied[i, y] == board[i, y]
      {
        copied[i, j] := board[i, j];
      }
    }
  }

  /** Two boards with the same cells are the same board. */
  lemma SameCells(a: Board, b: Board)
    requires forall i, j :: InBoard(i, j) ==> a[i][j] == b[i][j]
    ensures a == b
  {
    forall i | 0 <= i < SIZE ensures a[i] == b[i] {
      assert forall j :: 0 <= j < SIZE ==> a[i][j] == b[i][j];
    }
  }

  // ---------------------------------------------------------------- consistency rules

  /** checkTrialWithoutDeclare: the move gives check but declares neither check nor mate. */
  method CheckTrialWithoutDeclare(board: array2<char>, move: Move, isWhiteMove: bool, isThreatToWhite: bool)
    returns (r: bool)
    requires board.Length0 == SIZE && board.Length1 == SIZE
    requires InBoard(move.iSrc, move.jSrc) && InBoard(move.iDest, move.jDest)
    ensures r <==> !move.isCheck && !move.isMate && InCheck(Simulate(Cells(board), move), isWhiteMove, isThreatToWhite)
  {
    var isCheckAfterMove := TestBoardCheck(board, move, isWhiteMove, isThreatToWhite);
    r := !move.isCheck && !move.isMate && isCheckAfterMove;
  }

  /** checkDeclareWithoutTrial: the move declares check or mate but gives no check. */
  method CheckDeclareWithoutTrial(board: array2<char>, move: Move, isWhiteMove: bool, isThreatToWhite: bool)
    returns (r: bool)
    requires board.Length0 == SIZE && board.Length1 == SIZE
    requires InBoard(move.iSrc, move.jSrc) && InBoard(move.iDest, move.jDest)
    ensures r <==> (move.isCheck || move.isMate) && !InCheck(Simulate(Cells(board), move), isWhiteMove, isThreatToWhite)
  {
    var isCheckAfterMove := TestBoardCheck(board, move, isWhiteMove, isThreatToWhite);
    r := (move.isCheck || move.isMate) && !isCheckAfterMove;
  }

  /** moveCauseToCheckThreat: after the move the given side is in check. */
  method MoveCauseToCheckThreat(board: array2<char>, move: Move, isWhiteMove: bool, isThreatToWhite: bool)
    returns (r: bool)
    requires board.Length0 == SIZE && board.Length1 == SIZE
    requires InBoard(move.iSrc, move.jSrc) && InBoard(move.iDest, move.jDest)
    ensures r <==> InCheck(Simulate(Cells(board), move), isWhiteMove, isThreatToWhite)
  {
    r := TestBoardCheck(board, move, isWhiteMove, isThreatToWhite);
  }

  /** limitedMoveInCheckCase: the given side is in check before the move and still after it. */
  method LimitedMoveInCheckCase(board: array2<char>, move: Move, isWhiteMove: bool, isThreatToWhite: bool)
    returns (r: bool)
    requires board.Length0 == SIZE && board.Length1 == SIZE
    requires InBoard(move.iSrc, move.jSrc) && InBoard(move.iDest, move.jDest)
    ensures r <==> InCheck(Cells(board), isWhiteMove, isThreatToWhite)
                   && InCheck(Simulate(Cells(board), move), isWhiteMove, isThreatToWhite)
  {
    var isCheckAlready := IsCheckCase(Cells(board), isWhiteMove, isThreatToWhite);
    if isCheckAlready {
      var isStillCheck := TestBoardCheck(board, move, isWhiteMove, isThreatToWhite);
      return isStillCheck;
    }
    return false;
  }

  /** What testCheckConditions returns: the rules in the source's order, the first that
      fires marking the move illegal. Together: only the legality changes, and a move stays
      legal exactly when it declares check (or mate) if and only if it gives check, and it
      leaves the mover's own king out of check. The fourth rule (in check before and after)
      never decides, since the third (in check after) already fired. */
  ghost function CheckConditions(b: Board, m: Move): (r: Move)
    requires InBoard(m.iSrc, m.jSrc) && InBoard(m.iDest, m.jDest)
    ensures r == m.(isLegal := r.isLegal)
    ensures r.isLegal <==> (m.isLegal
              && ((m.isCheck || m.isMate) <==> InCheck(Simulate(b, m), m.isWhite, !m.isWhite))
              && !InCheck(Simulate(b, m), !m.isWhite, m.isWhite))
  {
    var after := Simulate(b, m);
    if !m.isCheck && !m.isMate && InCheck(after, m.isWhite, !m.isWhite) then m.(isLegal := false)
    else if (m.isCheck || m.isMate) && !InCheck(after, m.isWhite, !m.isWhite) then m.(isLegal := false)
    else if InCheck(after, !m.isWhite, m.isWhite) then m.(isLegal := false)
    else if InCheck(b, !m.isWhite, m.isWhite) && InCheck(after, !m.isWhite, m.isWhite) then m.(isLegal := false)
    else m
  }

  /** testCheckConditions. */
  method TestCheckConditions(board: array2<char>, move: Move) returns (r: Move)
    requires board.Length0 == SIZE && board.Length1 == SIZE
    requires InBoard(move.iSrc, move.jSrc) && InBoard(move.iDest, move.jDest)
    ensures r == CheckConditions(Cells(board), move)
  {
    r := move;
    var trial := CheckTrialWithoutDeclare(board, r, r.isWhite, !r.isWhite);
    if trial {
      r := r.(isLegal := false);
      return;
    }
    var declare := CheckDeclareWithoutTrial(board, r, r.isWhite, !r.isWhite);
    if declare {
      r := r.(isLegal := false);
      return;
    }
    var threat := MoveCauseToCheckThreat(board, r, !r.isWhite, r.isWhite);
    if threat {
      r := r.(isLegal := false);
      return;
    }
    var limited := LimitedMoveInCheckCase(board, r, !r.isWhite, r.isWhite);
    if limited {
      r := r.(isLegal := false);
      return;
    }
  }
}
