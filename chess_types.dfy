/** Shared vocabulary of the move-validation engine: board size, cell markers,
    the character classes the parser uses, the board and the Move record. */
module Chess {

  datatype Option<T> = None | Some(value: T)

  /** Board side length (the engine's SIZE). Ranks are single digits, so SIZE <= 9. */
  const SIZE: int := 8

  /** Marker of an empty cell. */
  const EMPTY: char := ' '

  /** The C string terminator, used where the source reads one past the text. */
  const NUL: char := '\0'

  /** Same meaning as C's isdigit. */
  predicate IsDigit(c: char) { '0' <= c <= '9' }

  predicate IsLower(c: char) { 'a' <= c <= 'z' }

  predicate IsUpper(c: char) { 'A' <= c <= 'Z' }

  predicate IsLetter(c: char) { IsLower(c) || IsUpper(c) }

  /** The numeric value of a digit character (toDigit); the source asserts that it is a digit. */
  function ToDigit(c: char): (d: int)
    requires IsDigit(c)
    ensures 0 <= d <= 9
    ensures DigitChar(d) == c
  {
    c as int - '0' as int
  }

  /** The digit character of a value in 0..9; left inverse of ToDigit. */
  function DigitChar(d: int): char
    requires 0 <= d <= 9
  {
    ('0' as int + d) as char
  }

  /** C's tolower: upper-case letters map to lower case, every other character is kept. */
  function ToLower(c: char): (r: char)
    ensures IsUpper(c) ==> IsLower(r) && ToUpper(r) == c
    ensures !IsUpper(c) ==> r == c
  {
    if IsUpper(c) then (c as int + 32) as char else c
  }

  /** C's toupper, the partner of ToLower. */
  function ToUpper(c: char): char
  {
    if IsLower(c) then (c as int - 32) as char else c
  }

  function Abs(x: int): (r: nat)
    ensures r == x || r == -x
  {
    if x < 0 then -x else x
  }

  function Min(a: int, b: int): int { if a <= b then a else b }

  function Max(a: int, b: int): int { if a <= b then b else a }

  /** The character at index k of a C string: the terminator past the end. */
  function CharAt(s: seq<char>, k: int): (c: char)
    requires 0 <= k
    ensures k < |s| ==> c == s[k]
    ensures k >= |s| ==> c == NUL
  {
    if k < |s| then s[k] else NUL
  }

  predicate IsBoardShape(b: seq<seq<char>>)
  {
    |b| == SIZE && forall i :: 0 <= i < |b| ==> |b[i]| == SIZE
  }

  /** A SIZE x SIZE grid of cells; row 0 is rank SIZE (black's back rank). */
  type Board = b: seq<seq<char>> | IsBoardShape(b)
    witness seq(8, _ => seq(8, _ => ' '))

  predicate InBoard(i: int, j: int) { 0 <= i < SIZE && 0 <= j < SIZE }

  /** Every cell holds EMPTY or a letter (upper case white, lower case black). */
  ghost predicate WellFormedCells(b: Board)
  {
    forall i, j :: InBoard(i, j) ==> b[i][j] == EMPTY || IsLetter(b[i][j])
  }

  /** The contents of a SIZE x SIZE char array, as a Board value. */
  function Cells(a: array2<char>): (b: Board)
    reads a
    requires a.Length0 == SIZE && a.Length1 == SIZE
    ensures forall i, j :: InBoard(i, j) ==> b[i][j] == a[i, j]
  {
    seq(SIZE, i requires 0 <= i < SIZE reads a =>
      seq(SIZE, j requires 0 <= j < SIZE reads a => a[i, j]))
  }

  /** The move record threaded through every stage. Character fields hold NUL when
      absent; iSrc and jSrc are -1 when no hint was given; the flags are the C ints. */
  datatype Move = Move(
    srcPiece: char, srcRow: char, srcCol: char,
    destPiece: char, destRow: char, destCol: char, promotionPiece: char,
    iSrc: int, jSrc: int, iDest: int, jDest: int,
    isWhite: bool, isCapture: bool, isPromotion: bool,
    isCheck: bool, isMate: bool, isLegal: bool)

  /** A fresh record as initMove starts it: legal, with the mover's colour set.
      Fields the source leaves uninitialised are NUL, -1 or false here. */
  function FreshMove(isWhiteTurn: bool): (m: Move)
    ensures m.isLegal && m.isWhite == isWhiteTurn
  {
    Move(NUL, NUL, NUL, NUL, NUL, NUL, NUL, -1, -1, -1, -1,
         isWhiteTurn, false, false, false, false, true)
  }

  /** The board marker of the moving piece: upper case for white, lower case for black. */
  function ConvertPieceChar(m: Move): (c: char)
    ensures IsUpper(m.srcPiece) && m.isWhite ==> c == m.srcPiece
    ensures IsUpper(m.srcPiece) && !m.isWhite ==> IsLower(c) && ToUpper(c) == m.srcPiece
  {
    if !m.isWhite then ToLower(m.srcPiece) else m.srcPiece
  }

  /** The occupant of the destination square (findDestPiece): on a well-formed board it is
      EMPTY or a piece letter, which is what the colour tests are defined on. */
  function FindDestPiece(iDest: int, jDest: int, board: Board): (c: char)
    requires InBoard(iDest, jDest)
    ensures WellFormedCells(board) ==> c == EMPTY || IsLetter(c)
  {
    board[iDest][jDest]
  }
}
