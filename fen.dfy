/** The FEN row expander (createRow): one rank of the piece-placement field of FEN
    (section 16.1 of the PGN standard) written into one row of the board, and createBoard
    applying it to every row. */
module Fen {
  import opened Chess

  /** The cells one FEN character stands for: a digit d is d empty cells, any other
      character is itself. */
  function Expansion(c: char): (cells: seq<char>)
    ensures IsDigit(c) ==> |cells| == ToDigit(c) && forall k :: 0 <= k < |cells| ==> cells[k] == EMPTY
    ensures !IsDigit(c) ==> cells == [c]
  {
    if IsDigit(c) then seq(ToDigit(c), _ => EMPTY) else [c]
  }

  /** The cells a FEN row text stands for, up to its terminator. */
  function ExpandRow(s: seq<char>): seq<char>
  {
    if s == [] || s[0] == NUL then [] else Expansion(s[0]) + ExpandRow(s[1..])
  }

  /** The sum of the digits of a text, up to its terminator. */
  function DigitSum(s: seq<char>): nat
  {
    if s == [] || s[0] == NUL then 0 else (if IsDigit(s[0]) then ToDigit(s[0]) else 0) + DigitSum(s[1..])
  }

  /** The number of non-digit characters of a text, up to its terminator. */
  function NonDigitCount(s: seq<char>): nat
  {
    if s == [] || s[0] == NUL then 0 else (if IsDigit(s[0]) then 0 else 1) + NonDigitCount(s[1..])
  }

  /** The row is as long as its digits' sum plus its other characters. */
  lemma {:induction false} ExpandRowLength(s: seq<char>)
    ensures |ExpandRow(s)| == DigitSum(s) + NonDigitCount(s)
  {
    if s != [] && s[0] != NUL {
      ExpandRowLength(s[1..]);
    }
  }

  /** The expansion of two texts in a row is the expansions in a row, when the first has
      no terminator. */
  lemma {:induction false} ExpandRowConcat(a: seq<char>, b: seq<char>)
    requires NUL !in a
    ensures ExpandRow(a + b) == ExpandRow(a) + ExpandRow(b)
  {
    if a == [] {
      assert a + b == b;
    } else {
      assert (a + b)[1..] == a[1..] + b;
      ExpandRowConcat(a[1..], b);
    }
  }

  /** Every cell written is EMPTY or a non-digit character of the text. */
  lemma {:induction false} ExpandRowCells(s: seq<char>)
    ensures forall k :: 0 <= k < |ExpandRow(s)| ==>
              ExpandRow(s)[k] == EMPTY || (ExpandRow(s)[k] in s && !IsDigit(ExpandRow(s)[k]))
  {
    if s != [] && s[0] != NUL {
      ExpandRowCells(s[1..]);
      var e := ExpandRow(s);
      forall k | 0 <= k < |e| ensures e[k] == EMPTY || (e[k] in s && !IsDigit(e[k])) {
        var head := Expansion(s[0]);
        if k >= |head| {
          assert e[k] == ExpandRow(s[1..])[k - |head|];
          if e[k] != EMPTY {
            assert e[k] in s[1..];
          }
        }
      }
    }
  }

  /** createRow, writing row `row` of the board from column 0 on; the source writes past
      the row when the text stands for more cells than the row holds, so that is excluded. */
  method CreateRow(fen: seq<char>, board: array2<char>, row: int)
    modifies board
    requires 0 <= row < board.Length0
    requires |ExpandRow(fen)| <= board.Length1
    ensures forall k :: 0 <= k < |ExpandRow(fen)| ==> board[row, k] == ExpandRow(fen)[k]
    ensures forall x, y :: 0 <= x < board.Length0 && x != row && 0 <= y < board.Length1 ==> board[x, y] == old(board[x, y])
    ensures forall y :: |ExpandRow(fen)| <= y < board.Length1 ==> board[row, y] == old(board[row, y])
  {
    ghost var e := ExpandRow(fen);
    var i := 0;
    var c := 0;
    while c < |fen| && fen[c] != NUL
      invariant 0 <= c <= |fen| && 0 <= i <= |e|
      invariant ExpandRow(fen[c..]) == e[i..]
      invariant forall k :: 0 <= k < i ==> board[row, k] == e[k]
      invariant forall x, y :: 0 <= x < board.Length0 && x != row && 0 <= y < board.Length1 ==> board[x, y] == old(board[x, y])
      invariant forall y :: i <= y < board.Length1 ==> board[row, y] == old(board[row, y])
    {
      ExpandRowStep(fen, c);
      SplitSuffix(e, i, Expansion(fen[c]), ExpandRow(fen[c + 1..]));
      var n := WriteExpansion(board, row, i, fen[c]);
      i := i + n;
      c := c + 1;
    }
    if c < |fen| {
      assert fen[c..][0] == NUL;
    }
    assert |ExpandRow(fen[c..])| == 0;
  }

  /** One character of createRow: its cells written from column `from` on; `n` is how many. */
  method WriteExpansion(board: array2<char>, row: int, from: int, ch: char) returns (n: int)
    modifies board
    requires 0 <= row < board.Length0 && 0 <= from && from + |Expansion(ch)| <= board.Length1
    ensures n == |Expansion(ch)|
    ensures forall y :: from <= y < from + n ==> board[row, y] == Expansion(ch)[y - from]
    ensures forall x, y :: 0 <= x < board.Length0 && x != row && 0 <= y < board.Length1 ==> board[x, y] == old(board[x, y])
    ensures forall y :: 0 <= y < board.Length1 && !(from <= y < from + n) ==> board[row, y] == old(board[row, y])
  {
    if IsDigit(ch) {
      n := ToDigit(ch);
      FillEmpty(board, row, from, n);
    } else {
      board[row, from] := ch;
      n := 1;
    }
  }

  /** The digit case of createRow: `count` empty cells from column `from` on. */
  method FillEmpty(board: array2<char>, row: int, from: int, count: nat)
    modifies board
    requires 0 <= row < board.Length0 && 0 <= from && from + count <= board.Length1
    ensures forall y :: from <= y < from + count ==> board[row, y] == EMPTY
    ensures forall x, y :: 0 <= x < board.Length0 && x != row && 0 <= y < board.Length1 ==> board[x, y] == old(board[x, y])
    ensures forall y :: 0 <= y < board.Length1 && !(from <= y < from + count) ==> board[row, y] == old(board[row, y])
  {
    for z := 0 to count
      invariant forall y :: from <= y < from + z ==> board[row, y] == EMPTY
      invariant forall x, y :: 0 <= x < board.Length0 && x != row && 0 <= y < board.Length1 ==> board[x, y] == old(board[x, y])
      invariant forall y :: 0 <= y < board.Length1 && !(from <= y < from + z) ==> board[row, y] == old(board[row, y])
    {
      board[row, from + z] := EMPTY;
    }
  }

  /** A suffix that splits into a head and a rest: the head's cells are at i on, and the
      rest is the suffix after them. */
  lemma SplitSuffix(e: seq<char>, i: int, head: seq<char>, rest: seq<char>)
    requires 0 <= i <= |e| && e[i..] == head + rest
    ensures i + |head| <= |e| && e[i + |head|..] == rest
    ensures forall k :: i <= k < i + |head| ==> e[k] == head[k - i]
  {
    assert forall k :: i <= k < i + |head| ==> e[k] == e[i..][k - i];
  }

  /** One step of the expansion at index c. */
  lemma ExpandRowStep(s: seq<char>, c: int)
    requires 0 <= c < |s| && s[c] != NUL
    ensures ExpandRow(s[c..]) == Expansion(s[c]) + ExpandRow(s[c + 1..])
  {
    assert s[c..][1..] == s[c + 1..];
  }

  /** createBoard without its tokenising: rows k of the board are expanded from the given
      row texts, top to bottom. */
  method CreateBoard(board: array2<char>, rows: seq<seq<char>>)
    modifies board
    requires board.Length0 == SIZE && board.Length1 == SIZE && |rows| == SIZE
    requires forall k :: 0 <= k < SIZE ==> |ExpandRow(rows[k])| <= SIZE
    ensures forall x, y :: InBoard(x, y) ==>
              board[x, y] == if y < |ExpandRow(rows[x])| then ExpandRow(rows[x])[y] else old(board[x, y])
  {
    for r := 0 to SIZE
      invariant forall x, y :: InBoard(x, y) ==>
                  board[x, y] == if x < r && y < |ExpandRow(rows[x])| then ExpandRow(rows[x])[y] else old(board[x, y])
    {
      CreateRow(rows[r], board, r);
    }
  }
}
