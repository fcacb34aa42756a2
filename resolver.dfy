/** The candidate resolver (findOptionalPieceByMove): for the declared piece kind it scans
    the squares that could reach the destination, in a fixed order, and returns the move
    with the FIRST source square that holds the mover's piece, passes the kind's validator
    and agrees with the hints.

    Scan orders. Rook: the destination's column top to bottom, then its row left to right.
    Knight, bishop, queen, king and pawn: a rectangle of rows and columns (the 5x5 frame
    around the destination, the whole board, the 3x3 frame, two rows behind the
    destination) scanned row by row; such a scan meets the squares in lexicographic
    (row, column) order, so all five share one specification. */
module Resolver {
  import opened Chess
  import opened Validators

  /** The kinds with a case in the resolver's switch. */
  predicate KindOk(c: char)
  {
    c == 'R' || c == 'N' || c == 'B' || c == 'Q' || c == 'K' || c == 'P'
  }

  /** The kinds scanned over a rectangle. */
  predicate FrameKind(c: char)
  {
    c == 'N' || c == 'B' || c == 'Q' || c == 'K' || c == 'P'
  }

  /** What the resolver needs of its move: an on-board destination whose occupant the
      colour tests are defined on. */
  predicate Resolvable(m: Move)
  {
    InBoard(m.iDest, m.jDest) && DestOk(m)
  }

  /** The squares the kind's scan offers to the validator (before the validator runs). */
  predicate InScan(m: Move, i: int, j: int)
  {
    var di, dj := Abs(i - m.iDest), Abs(j - m.jDest);
    match m.srcPiece
    case 'R' => (j == m.jDest && i != m.iDest) || (i == m.iDest && j != m.jDest)
    case 'N' => di <= 2 && dj <= 2 && (di == 2 || dj == 2)
    case 'B' => di == dj
    case 'Q' => IsStraight(i, j, m.iDest, m.jDest) || IsDiagonal(i, j, m.iDest, m.jDest)
    case 'K' => di <= 1 && dj <= 1
    case 'P' => dj <= 1 && (if m.isWhite then 1 <= i - m.iDest <= 2 else 1 <= m.iDest - i <= 2)
    case _ => false
  }

  /** The validator of the move's kind. */
  ghost predicate Accepts(b: Board, m: Move, i: int, j: int)
    requires InBoard(i, j) && Resolvable(m)
  {
    match m.srcPiece
    case 'R' => RookAccepts(b, m, i, j)
    case 'N' => KnightAccepts(m, i, j)
    case 'B' => BishopAccepts(b, m, i, j)
    case 'Q' => QueenAccepts(b, m, i, j)
    case 'K' => KingAccepts(m, i, j)
    case 'P' => PawnAccepts(b, m, i, j)
    case _ => false
  }

  /** A hint that is given (>= 0) equals the candidate's coordinate. */
  predicate HintOk(m: Move, i: int, j: int)
  {
    !((m.iSrc >= 0 && i != m.iSrc) || (m.jSrc >= 0 && j != m.jSrc))
  }

  /** A square the resolver would accept. */
  ghost predicate Qualifies(b: Board, m: Move, i: int, j: int)
    requires InBoard(i, j) && Resolvable(m)
  {
    b[i][j] == ConvertPieceChar(m) && InScan(m, i, j) && m.isLegal && Accepts(b, m, i, j) && HintOk(m, i, j)
  }

  // ---------------------------------------------------------------- rook scan order

  /** Position k of the rook scan: the column (k < SIZE), then the row. */
  function RookSquare(m: Move, k: int): (int, int)
  {
    if k < SIZE then (k, m.jDest) else (m.iDest, k - SIZE)
  }

  ghost predicate RookQualifiesAt(b: Board, m: Move, k: int)
    requires 0 <= k < 2 * SIZE && Resolvable(m)
  {
    var (i, j) := RookSquare(m, k);
    Qualifies(b, m, i, j)
  }

  /** Which positions of the rook scan qualify. */
  ghost function RookFlags(b: Board, m: Move): seq<bool>
    requires Resolvable(m)
  {
    seq(2 * SIZE, k requires 0 <= k < 2 * SIZE => RookQualifiesAt(b, m, k))
  }

  // ---------------------------------------------------------------- first match of a scan

  /** The first true position at or after k. */
  function FirstTrue(f: seq<bool>, k: nat): Option<int>
    decreases |f| - k
  {
    if k >= |f| then None else if f[k] then Some(k) else FirstTrue(f, k + 1)
  }

  lemma {:induction false} FirstTrueSound(f: seq<bool>, k: nat)
    requires k <= |f|
    ensures match FirstTrue(f, k)
      case Some(p) => k <= p < |f| && f[p] && forall q :: k <= q < p ==> !f[q]
      case None => forall q :: k <= q < |f| ==> !f[q]
    decreases |f| - k
  {
    if k < |f| && !f[k] {
      FirstTrueSound(f, k + 1);
    }
  }

  /** A true position with none before it is the first one. */
  lemma FirstTrueIs(f: seq<bool>, p: int)
    requires 0 <= p < |f| && f[p]
    requires forall q :: 0 <= q < p ==> !f[q]
    ensures FirstTrue(f, 0) == Some(p)
  {
    FirstTrueSound(f, 0);
  }

  lemma FirstTrueNone(f: seq<bool>)
    requires forall q :: 0 <= q < |f| ==> !f[q]
    ensures FirstTrue(f, 0) == None
  {
    FirstTrueSound(f, 0);
  }

  predicate LexLess(a: int, c: int, x: int, y: int)
  {
    a < x || (a == x && c < y)
  }

  predicate IsGrid(g: seq<seq<bool>>)
  {
    |g| == SIZE && forall r :: 0 <= r < SIZE ==> |g[r]| == SIZE
  }

  /** The first true square at or after (i, j) in row-major order. */
  function FirstInGrid(g: seq<seq<bool>>, i: int, j: int): Option<(int, int)>
    requires IsGrid(g) && 0 <= i <= SIZE && 0 <= j <= SIZE
    decreases SIZE - i, SIZE - j
  {
    if i == SIZE then None
    else if j == SIZE then FirstInGrid(g, i + 1, 0)
    else if g[i][j] then Some((i, j))
    else FirstInGrid(g, i, j + 1)
  }

  lemma {:induction false} FirstInGridSound(g: seq<seq<bool>>, i: int, j: int)
    requires IsGrid(g) && 0 <= i <= SIZE && 0 <= j <= SIZE
    ensures match FirstInGrid(g, i, j)
      case Some(sq) => InBoard(sq.0, sq.1) && !LexLess(sq.0, sq.1, i, j) && g[sq.0][sq.1]
        && forall x, y :: InBoard(x, y) && !LexLess(x, y, i, j) && LexLess(x, y, sq.0, sq.1) ==> !g[x][y]
      case None => forall x, y :: InBoard(x, y) && !LexLess(x, y, i, j) ==> !g[x][y]
    decreases SIZE - i, SIZE - j
  {
    if i < SIZE {
      if j == SIZE {
        FirstInGridSound(g, i + 1, 0);
      } else if !g[i][j] {
        FirstInGridSound(g, i, j + 1);
      }
    }
  }

  /** A true square with none before it is the first one. */
  lemma FirstInGridIs(g: seq<seq<bool>>, a: int, c: int)
    requires IsGrid(g) && InBoard(a, c) && g[a][c]
    requires forall x, y :: InBoard(x, y) && LexLess(x, y, a, c) ==> !g[x][y]
    ensures FirstInGrid(g, 0, 0) == Some((a, c))
  {
    FirstInGridSound(g, 0, 0);
  }

  lemma FirstInGridNone(g: seq<seq<bool>>)
    requires IsGrid(g)
    requires forall x, y :: InBoard(x, y) ==> !g[x][y]
    ensures FirstInGrid(g, 0, 0) == None
  {
    FirstInGridSound(g, 0, 0);
  }

  /** Which squares qualify. */
  ghost function SquareFlags(b: Board, m: Move): (g: seq<seq<bool>>)
    requires Resolvable(m)
    ensures IsGrid(g)
  {
    seq(SIZE, i requires 0 <= i < SIZE =>
      seq(SIZE, j requires 0 <= j < SIZE => Qualifies(b, m, i, j)))
  }

  // ---------------------------------------------------------------- specification

  /** What findOptionalPieceByMove returns: the move with the first qualifying square as its
      source, or the move marked illegal when there is none or the kind has no case. */
  ghost function Resolve(b: Board, m: Move): Move
    requires Resolvable(m)
  {
    if m.srcPiece == 'R' then
      match FirstTrue(RookFlags(b, m), 0)
      case Some(k) => m.(iSrc := RookSquare(m, k).0, jSrc := RookSquare(m, k).1)
      case None => m.(isLegal := false)
    else if FrameKind(m.srcPiece) then
      match FirstInGrid(SquareFlags(b, m), 0, 0)
      case Some(sq) => m.(iSrc := sq.0, jSrc := sq.1)
      case None => m.(isLegal := false)
    else m.(isLegal := false)
  }

  /** A legal result names an on-board source square that holds the mover's piece, that the
      kind's validator accepted and that agrees with every given hint; only the source
      coordinates change. A rejection changes only the legality. */
  lemma ResolveSound(b: Board, m: Move)
    requires Resolvable(m)
    ensures var r := Resolve(b, m);
      (r.isLegal ==>
        m.isLegal && KindOk(m.srcPiece) && InBoard(r.iSrc, r.jSrc)
        && b[r.iSrc][r.jSrc] == ConvertPieceChar(m)
        && Accepts(b, m, r.iSrc, r.jSrc)
        && (m.iSrc >= 0 ==> r.iSrc == m.iSrc) && (m.jSrc >= 0 ==> r.jSrc == m.jSrc)
        && r == m.(iSrc := r.iSrc, jSrc := r.jSrc)) &&
      (!r.isLegal ==> r == m.(isLegal := false))
  {
    if m.srcPiece == 'R' {
      ResolveSoundRook(b, m);
    } else if FrameKind(m.srcPiece) {
      ResolveSoundFrame(b, m);
    }
  }

  lemma ResolveSoundRook(b: Board, m: Move)
    requires Resolvable(m) && m.srcPiece == 'R'
    ensures var r := Resolve(b, m);
      (r.isLegal ==>
        m.isLegal && InBoard(r.iSrc, r.jSrc)
        && b[r.iSrc][r.jSrc] == ConvertPieceChar(m)
        && RookAccepts(b, m, r.iSrc, r.jSrc)
        && (m.iSrc >= 0 ==> r.iSrc == m.iSrc) && (m.jSrc >= 0 ==> r.jSrc == m.jSrc)
        && r == m.(iSrc := r.iSrc, jSrc := r.jSrc)) &&
      (!r.isLegal ==> r == m.(isLegal := false))
  {
    var f := RookFlags(b, m);
    FirstTrueSound(f, 0);
    match FirstTrue(f, 0)
    case Some(k) =>
      assert f[k];
    case None =>
  }

  lemma ResolveSoundFrame(b: Board, m: Move)
    requires Resolvable(m) && FrameKind(m.srcPiece)
    ensures var r := Resolve(b, m);
      (r.isLegal ==>
        m.isLegal && InBoard(r.iSrc, r.jSrc)
        && b[r.iSrc][r.jSrc] == ConvertPieceChar(m)
        && Accepts(b, m, r.iSrc, r.jSrc)
        && (m.iSrc >= 0 ==> r.iSrc == m.iSrc) && (m.jSrc >= 0 ==> r.jSrc == m.jSrc)
        && r == m.(iSrc := r.iSrc, jSrc := r.jSrc)) &&
      (!r.isLegal ==> r == m.(isLegal := false))
  {
    var g := SquareFlags(b, m);
    FirstInGridSound(g, 0, 0);
    match FirstInGrid(g, 0, 0)
    case Some(sq) =>
      assert g[sq.0][sq.1];
    case None =>
  }

  /** A rook result is the first qualifying square of its scan: it is position p of the
      scan (the destination's column top to bottom, then its row left to right), and no
      earlier position qualifies. */
  lemma ResolveRookFirst(b: Board, m: Move)
    requires Resolvable(m) && m.srcPiece == 'R' && Resolve(b, m).isLegal
    ensures var r := Resolve(b, m);
      exists p :: 0 <= p < 2 * SIZE && RookSquare(m, p) == (r.iSrc, r.jSrc)
        && RookQualifiesAt(b, m, p)
        && forall k :: 0 <= k < p ==> !RookQualifiesAt(b, m, k)
  {
    var f := RookFlags(b, m);
    FirstTrueSound(f, 0);
    var p :| FirstTrue(f, 0) == Some(p);
    var r := Resolve(b, m);
    assert RookSquare(m, p) == (r.iSrc, r.jSrc);
    assert f[p] && RookQualifiesAt(b, m, p);
    forall k | 0 <= k < p ensures !RookQualifiesAt(b, m, k) {
      assert !f[k];
    }
  }

  /** Any other result is the first qualifying square in row-major order. */
  lemma ResolveFrameFirst(b: Board, m: Move)
    requires Resolvable(m) && FrameKind(m.srcPiece) && Resolve(b, m).isLegal
    ensures var r := Resolve(b, m);
      InBoard(r.iSrc, r.jSrc) && Qualifies(b, m, r.iSrc, r.jSrc)
      && forall x, y :: InBoard(x, y) && LexLess(x, y, r.iSrc, r.jSrc) ==> !Qualifies(b, m, x, y)
  {
    var g := SquareFlags(b, m);
    FirstInGridSound(g, 0, 0);
    var r := Resolve(b, m);
    assert g[r.iSrc][r.jSrc];
    forall x, y | InBoard(x, y) && LexLess(x, y, r.iSrc, r.jSrc) ensures !Qualifies(b, m, x, y) {
      assert !g[x][y];
    }
  }

  /** A rejection means no square qualifies (or the kind has no case). */
  lemma ResolveComplete(b: Board, m: Move)
    requires Resolvable(m) && !Resolve(b, m).isLegal
    ensures forall x, y :: InBoard(x, y) ==> !Qualifies(b, m, x, y)
  {
    if m.srcPiece == 'R' {
      var f := RookFlags(b, m);
      FirstTrueSound(f, 0);
      forall x, y | InBoard(x, y) ensures !Qualifies(b, m, x, y) {
        if y == m.jDest {
          assert RookSquare(m, x) == (x, y);
          assert !f[x];
        } else if x == m.iDest {
          assert RookSquare(m, SIZE + y) == (x, y);
          assert !f[SIZE + y];
        }
      }
    } else if FrameKind(m.srcPiece) {
      var g := SquareFlags(b, m);
      FirstInGridSound(g, 0, 0);
      forall x, y | InBoard(x, y) ensures !Qualifies(b, m, x, y) {
        assert !g[x][y];
      }
    }
  }

  // ---------------------------------------------------------------- the resolver

  method FindOptionalPieceByMove(board: Board, move: Move) returns (r: Move)
    requires Resolvable(move)
    ensures r == Resolve(board, move)
  {
    match move.srcPiece {
      case 'R' =>
        r := ResolveRook(board, move);
      case 'N' =>
        r := ScanFrame(board, move, move.iDest - 2, move.iDest + 2, move.jDest - 2, move.jDest + 2);
      case 'B' =>
        r := ScanFrame(board, move, 0, SIZE - 1, 0, SIZE - 1);
      case 'Q' =>
        r := ScanFrame(board, move, 0, SIZE - 1, 0, SIZE - 1);
      case 'K' =>
        r := ScanFrame(board, move, move.iDest - 1, move.iDest + 1, move.jDest - 1, move.jDest + 1);
      case 'P' =>
        if move.isWhite {
          r := ScanFrame(board, move, move.iDest + 1, move.iDest + 2, move.jDest - 1, move.jDest + 1);
        } else {
          r := ScanFrame(board, move, move.iDest - 2, move.iDest - 1, move.jDest - 1, move.jDest + 1);
        }
      case _ =>
        r := move.(isLegal := false);
    }
  }

  /** The rook case: the destination's column, then its row. */
  method ResolveRook(board: Board, move: Move) returns (r: Move)
    requires Resolvable(move) && move.srcPiece == 'R'
    ensures r == Resolve(board, move)
  {
    ghost var f := RookFlags(board, move);
    for i := 0 to SIZE
      invariant forall k :: 0 <= k < i ==> !f[k]
    {
      assert RookSquare(move, i) == (i, move.jDest);
      var ok := TryCandidate(board, move, i, move.jDest);
      if ok {
        FirstTrueIs(f, i);
        return move.(iSrc := i, jSrc := move.jDest);
      }
    }
    for j := 0 to SIZE
      invariant forall k :: 0 <= k < SIZE + j ==> !f[k]
    {
      assert RookSquare(move, SIZE + j) == (move.iDest, j);
      var ok := TryCandidate(board, move, move.iDest, j);
      if ok {
        FirstTrueIs(f, SIZE + j);
        return move.(iSrc := move.iDest, jSrc := j);
      }
    }
    FirstTrueNone(f);
    return move.(isLegal := false);
  }

  /** Runs the kind's validator on square (i, j). */
  method Validate(board: Board, move: Move, i: int, j: int) returns (accepted: bool)
    requires Resolvable(move) && InBoard(i, j) && KindOk(move.srcPiece)
    ensures accepted == (move.isLegal && Accepts(board, move, i, j))
  {
    var candidate: Move;
    match move.srcPiece {
      case 'R' =>
        candidate := CheckRookMove(board, move, i, j);
      case 'N' =>
        candidate := CheckKnightMove(board, move, i, j);
      case 'B' =>
        candidate := CheckBishopMove(board, move, i, j);
      case 'Q' =>
        candidate := CheckQueenMove(board, move, i, j);
      case 'K' =>
        candidate := CheckKingMove(board, move, i, j);
      case 'P' =>
        candidate := CheckPawnMove(board, move, i, j);
    }
    accepted := candidate.isLegal;
  }

  /** Offers one square of a scan to the kind's validator; the rook, the knight, the bishop
      and the queen first filter the square as the source does. */
  method TryCandidate(board: Board, move: Move, i: int, j: int) returns (ok: bool)
    requires Resolvable(move) && InBoard(i, j) && KindOk(move.srcPiece)
    requires move.srcPiece == 'K' || move.srcPiece == 'P' ==> InScan(move, i, j)
    ensures ok == Qualifies(board, move, i, j)
  {
    if board[i][j] != ConvertPieceChar(move) {
      return false;
    }
    // the rook's exclusion of the destination, the knight's frame rows and columns, the
    // bishop's diagonal test and the queen's column, row and diagonal branches; the
    // king's and pawn's frames need no filter
    if (move.srcPiece == 'R' || move.srcPiece == 'N' || move.srcPiece == 'B' || move.srcPiece == 'Q') && !InScan(move, i, j) {
      return false;
    }
    var accepted := Validate(board, move, i, j);
    ok := accepted && HintOk(move, i, j);
  }

  /** Rows r0..r1 by columns c0..c1, row by row, skipping squares off the board. */
  method ScanFrame(board: Board, move: Move, r0: int, r1: int, c0: int, c1: int) returns (r: Move)
    requires Resolvable(move) && FrameKind(move.srcPiece) && r0 <= r1 && c0 <= c1
    requires forall i, j :: InBoard(i, j) && InScan(move, i, j) ==> r0 <= i <= r1 && c0 <= j <= c1
    requires forall i, j :: (InBoard(i, j) && r0 <= i <= r1 && c0 <= j <= c1
               && (move.srcPiece == 'K' || move.srcPiece == 'P'))
               ==> InScan(move, i, j)
    ensures r == Resolve(board, move)
  {
    ghost var g := SquareFlags(board, move);
    OutsideFrame(board, move, r0, r1, c0, c1);
    var i := r0;
    while i <= r1
      invariant r0 <= i <= r1 + 1
      invariant forall x, y :: InBoard(x, y) && x < i ==> !g[x][y]
    {
      var found := ScanRow(board, move, i, c0, c1);
      if found >= 0 {
        FirstInGridIs(g, i, found);
        return move.(iSrc := i, jSrc := found);
      }
      i := i + 1;
    }
    FirstInGridNone(g);
    return move.(isLegal := false);
  }

  /** One row of a rectangular scan, columns c0..c1 left to right: the first qualifying
      column, or -1. */
  method ScanRow(board: Board, move: Move, i: int, c0: int, c1: int) returns (found: int)
    requires Resolvable(move) && FrameKind(move.srcPiece)
    requires forall j :: (InBoard(i, j) && c0 <= j <= c1 && (move.srcPiece == 'K' || move.srcPiece == 'P'))
               ==> InScan(move, i, j)
    ensures found == -1 || (c0 <= found <= c1 && InBoard(i, found))
    ensures found >= 0 ==> SquareFlags(board, move)[i][found]
    ensures forall y :: InBoard(i, y) && c0 <= y && (found < 0 ==> y <= c1) && (found >= 0 ==> y < found)
              ==> !SquareFlags(board, move)[i][y]
  {
    ghost var g := SquareFlags(board, move);
    var j := c0;
    while j <= c1
      invariant c0 <= j
      invariant forall y :: InBoard(i, y) && c0 <= y < j ==> !g[i][y]
    {
      if InBoard(i, j) {
        var ok := TryCandidate(board, move, i, j);
        if ok {
          return j;
        }
      }
      j := j + 1;
    }
    return -1;
  }

  /** No square outside a frame that covers the scan qualifies. */
  lemma OutsideFrame(b: Board, m: Move, r0: int, r1: int, c0: int, c1: int)
    requires Resolvable(m) && FrameKind(m.srcPiece)
    requires forall i, j :: InBoard(i, j) && InScan(m, i, j) ==> r0 <= i <= r1 && c0 <= j <= c1
    ensures forall x, y :: InBoard(x, y) && !(r0 <= x <= r1 && c0 <= y <= c1) ==> !SquareFlags(b, m)[x][y]
  {
  }
}
