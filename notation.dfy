/** The notation parser and coordinate mapper: parseSrcFromPgn, parseDestFromPgn,
    parseConditionFromPgn, convertSrcMatrixIndex and convertDestMatrixIndex, each a loop
    proved against a specification function. */
module Notation {
  import opened Chess

  /** The character classes the backward scans look for. */
  datatype CharClass =
    | Digit       // isdigit
    | FileLetter  // a lower-case letter other than the capture sign 'x'
    | AnyLower    // any lower-case letter (the destination scan does not exclude 'x')

  predicate InClass(c: char, k: CharClass)
  {
    match k
    case Digit => IsDigit(c)
    case FileLetter => IsLower(c) && c != 'x'
    case AnyLower => IsLower(c)
  }

  /** The characters of s in class k, in the order a scan from the end meets them. */
  function MatchesFromEnd(s: seq<char>, k: CharClass): seq<char>
  {
    if s == [] then [] else MatchesFromEnd(s[1..], k) + (if InClass(s[0], k) then [s[0]] else [])
  }

  /** Element n of a scan, or NUL when the scan met fewer than n + 1 characters. */
  function Nth(s: seq<char>, n: nat): char
  {
    if n < |s| then s[n] else NUL
  }

  /** Every character of a scan is in its class. */
  lemma {:induction false} MatchesInClass(s: seq<char>, k: CharClass)
    ensures forall n :: 0 <= n < |MatchesFromEnd(s, k)| ==> InClass(MatchesFromEnd(s, k)[n], k)
  {
    if s != [] {
      MatchesInClass(s[1..], k);
    }
  }

  /** Scanning a concatenation from the end meets the second part first. */
  lemma {:induction false} MatchesConcat(a: seq<char>, b: seq<char>, k: CharClass)
    ensures MatchesFromEnd(a + b, k) == MatchesFromEnd(b, k) + MatchesFromEnd(a, k)
  {
    if a == [] {
      assert a + b == b;
    } else {
      assert (a + b)[1..] == a[1..] + b;
      MatchesConcat(a[1..], b, k);
    }
  }

  /** A text with no character of the class gives an empty scan. */
  lemma {:induction false} NoMatchesEmpty(s: seq<char>, k: CharClass)
    requires forall q :: 0 <= q < |s| ==> !InClass(s[q], k)
    ensures MatchesFromEnd(s, k) == []
  {
    if s != [] {
      assert forall q :: 1 <= q < |s| ==> s[1..][q - 1] == s[q];
      NoMatchesEmpty(s[1..], k);
    }
  }

  /** If s[p] is the last character of its class, a backward scan meets s[p] first and
      then what a scan of s[..p] meets. */
  lemma LastMatchSplits(s: seq<char>, k: CharClass, p: int)
    requires 0 <= p < |s| && InClass(s[p], k)
    requires forall q :: p < q < |s| ==> !InClass(s[q], k)
    ensures MatchesFromEnd(s, k) == [s[p]] + MatchesFromEnd(s[..p], k)
  {
    assert s == s[..p] + ([s[p]] + s[p + 1..]);
    NoMatchesEmpty(s[p + 1..], k);
    MatchesConcat([s[p]], s[p + 1..], k);
    MatchesConcat(s[..p], [s[p]] + s[p + 1..], k);
    assert [s[p]][1..] == [];
  }

  /** Destination scan: the first character met from the end is the LAST one in the class. */
  lemma FirstMatchIsLast(s: seq<char>, k: CharClass, p: int)
    requires 0 <= p < |s| && InClass(s[p], k)
    requires forall q :: p < q < |s| ==> !InClass(s[q], k)
    ensures |MatchesFromEnd(s, k)| > 0 && MatchesFromEnd(s, k)[0] == s[p]
  {
    LastMatchSplits(s, k, p);
  }

  /** Hint scan: the second character met is the last one in the class before the last. */
  lemma SecondMatchIsPrevious(s: seq<char>, k: CharClass, p0: int, p1: int)
    requires 0 <= p1 < p0 < |s| && InClass(s[p0], k) && InClass(s[p1], k)
    requires forall q :: p1 < q < |s| && q != p0 ==> !InClass(s[q], k)
    ensures |MatchesFromEnd(s, k)| > 1 && MatchesFromEnd(s, k)[1] == s[p1]
  {
    LastMatchSplits(s, k, p0);
    LastMatchSplits(s[..p0], k, p1);
  }

  /** A text with a single character of the class gives no hint. */
  lemma SingleMatchNoHint(s: seq<char>, k: CharClass, p: int)
    requires 0 <= p < |s| && InClass(s[p], k)
    requires forall q :: 0 <= q < |s| && q != p ==> !InClass(s[q], k)
    ensures Nth(MatchesFromEnd(s, k), 0) == s[p] && Nth(MatchesFromEnd(s, k), 1) == NUL
  {
    LastMatchSplits(s, k, p);
    NoMatchesEmpty(s[..p], k);
  }

  function SrcPiece(pgn: seq<char>): (c: char)
    ensures IsUpper(c)
  {
    if IsUpper(CharAt(pgn, 0)) then CharAt(pgn, 0) else 'P'
  }

  /** What parseSrcFromPgn records: the second digit and the second file letter met from
      the end as source hints (NUL when absent), and the piece letter. */
  function ParsedSrc(pgn: seq<char>, m: Move): Move
  {
    m.(srcRow := Nth(MatchesFromEnd(pgn, Digit), 1),
       srcCol := Nth(MatchesFromEnd(pgn, FileLetter), 1),
       srcPiece := SrcPiece(pgn))
  }

  /** The two scans' invariant step: one more character from the end. */
  lemma MatchesStep(s: seq<char>, i: int, k: CharClass)
    requires 0 <= i < |s|
    ensures MatchesFromEnd(s[i..], k)
         == MatchesFromEnd(s[i + 1..], k) + (if InClass(s[i], k) then [s[i]] else [])
  {
    assert s[i..][1..] == s[i + 1..];
  }

  method ParseSrcFromPgn(pgn: seq<char>, move: Move) returns (r: Move)
    ensures r == ParsedSrc(pgn, move)
    ensures r.srcRow == NUL || IsDigit(r.srcRow)
    ensures r.srcCol == NUL || IsLower(r.srcCol)
  {
    var srcRow, srcCol := move.srcRow, move.srcCol;
    var srcRowCounter, srcColCounter := 0, 0;
    var srcRowFound, srcColFound := false, false;
    var i := |pgn| - 1;
    while i >= 0
      invariant -1 <= i < |pgn|
      invariant srcRowCounter == |MatchesFromEnd(pgn[i + 1..], Digit)|
      invariant srcColCounter == |MatchesFromEnd(pgn[i + 1..], FileLetter)|
      invariant srcRowFound <==> srcRowCounter > 1
      invariant srcColFound <==> srcColCounter > 1
      invariant srcRowFound ==> srcRow == MatchesFromEnd(pgn[i + 1..], Digit)[1]
      invariant srcColFound ==> srcCol == MatchesFromEnd(pgn[i + 1..], FileLetter)[1]
    {
      MatchesStep(pgn, i, Digit);
      MatchesStep(pgn, i, FileLetter);
      if IsDigit(pgn[i]) {
        srcRowCounter := srcRowCounter + 1;
        if srcRowCounter > 1 && !srcRowFound {
          srcRow := pgn[i];
          srcRowFound := true;
        }
      }
      if IsLower(pgn[i]) && pgn[i] != 'x' {
        srcColCounter := srcColCounter + 1;
        if srcColCounter > 1 && !srcColFound {
          srcCol := pgn[i];
          srcColFound := true;
        }
      }
      i := i - 1;
    }
    assert pgn[0..] == pgn;
    if !srcRowFound {
      srcRow := NUL;
    }
    if !srcColFound {
      srcCol := NUL;
    }
    r := move.(srcRow := srcRow, srcCol := srcCol, srcPiece := SrcPiece(pgn));
    MatchesInClass(pgn, Digit);
    MatchesInClass(pgn, FileLetter);
  }

  /** What parseDestFromPgn records: the first digit and the first lower-case letter met
      from the end; a field is left as it was when the text has no such character. */
  function ParsedDest(pgn: seq<char>, m: Move): Move
  {
    var digits := MatchesFromEnd(pgn, Digit);
    var letters := MatchesFromEnd(pgn, AnyLower);
    m.(destRow := if |digits| > 0 then digits[0] else m.destRow,
       destCol := if |letters| > 0 then letters[0] else m.destCol)
  }

  method ParseDestFromPgn(pgn: seq<char>, move: Move) returns (r: Move)
    ensures r == ParsedDest(pgn, move)
  {
    var destRow, destCol := move.destRow, move.destCol;
    var destRowFound, destColFound := false, false;
    ghost var digits, letters := [], [];
    var i := |pgn| - 1;
    while i >= 0
      invariant -1 <= i < |pgn|
      invariant digits == MatchesFromEnd(pgn[i + 1..], Digit)
      invariant letters == MatchesFromEnd(pgn[i + 1..], AnyLower)
      invariant destRowFound <==> |digits| > 0
      invariant destColFound <==> |letters| > 0
      invariant destRow == if destRowFound then digits[0] else move.destRow
      invariant destCol == if destColFound then letters[0] else move.destCol
    {
      MatchesStep(pgn, i, Digit);
      MatchesStep(pgn, i, AnyLower);
      if IsDigit(pgn[i]) && !destRowFound {
        destRow := pgn[i];
        destRowFound := true;
      }
      if IsLower(pgn[i]) && !destColFound {
        destCol := pgn[i];
        destColFound := true;
      }
      digits := digits + (if IsDigit(pgn[i]) then [pgn[i]] else []);
      letters := letters + (if IsLower(pgn[i]) then [pgn[i]] else []);
      i := i - 1;
    }
    assert pgn[0..] == pgn;
    r := move.(destRow := destRow, destCol := destCol);
  }

  /** The fields of a move parseConditionFromPgn writes. */
  datatype Conditions = Conditions(isCapture: bool, isCheck: bool, isMate: bool,
                                   isPromotion: bool, promotionPiece: char)

  function ConditionsOf(m: Move): Conditions
  {
    Conditions(m.isCapture, m.isCheck, m.isMate, m.isPromotion, m.promotionPiece)
  }

  /** The flags parseConditionFromPgn sets while scanning from index i. A '=' records the
      next character (NUL past the end) as the promotion piece, and that character is
      then skipped. */
  function ScanConditions(pgn: seq<char>, i: nat, c: Conditions): Conditions
    decreases |pgn| - i
  {
    if i >= |pgn| then c
    else if pgn[i] == 'x' then ScanConditions(pgn, i + 1, c.(isCapture := true))
    else if pgn[i] == '+' then ScanConditions(pgn, i + 1, c.(isCheck := true))
    else if pgn[i] == '#' then ScanConditions(pgn, i + 1, c.(isMate := true))
    else if pgn[i] == '=' then
      ScanConditions(pgn, i + 2, c.(isPromotion := true, promotionPiece := CharAt(pgn, i + 1)))
    else ScanConditions(pgn, i + 1, c)
  }

  /** The move after parseConditionFromPgn: the four flags are cleared, then set by the
      scan of the whole text; only those flags and the promotion piece change. */
  function ParsedConditions(pgn: seq<char>, m: Move): (r: Move)
    ensures r == m.(isCapture := r.isCapture, isCheck := r.isCheck, isMate := r.isMate,
                    isPromotion := r.isPromotion, promotionPiece := r.promotionPiece)
    ensures ConditionsOf(r) == ScanConditions(pgn, 0, Conditions(false, false, false, false, m.promotionPiece))
  {
    var c := ScanConditions(pgn, 0, Conditions(false, false, false, false, m.promotionPiece));
    m.(isCapture := c.isCapture, isCheck := c.isCheck, isMate := c.isMate,
       isPromotion := c.isPromotion, promotionPiece := c.promotionPiece)
  }

  method ParseConditionFromPgn(pgn: seq<char>, move: Move) returns (r: Move)
    ensures r == ParsedConditions(pgn, move)
  {
    r := move.(isCapture := false, isCheck := false, isMate := false, isPromotion := false);
    var i := 0;
    while i < |pgn|
      invariant 0 <= i <= |pgn| + 1
      invariant r == move.(isCapture := r.isCapture, isCheck := r.isCheck, isMate := r.isMate,
                           isPromotion := r.isPromotion, promotionPiece := r.promotionPiece)
      invariant ScanConditions(pgn, i, ConditionsOf(r)) == ConditionsOf(ParsedConditions(pgn, move))
      decreases |pgn| - i
    {
      // the four tests of the source are exclusive, so they are chained here
      if pgn[i] == 'x' {
        r := r.(isCapture := true);
      } else if pgn[i] == '+' {
        r := r.(isCheck := true);
      } else if pgn[i] == '#' {
        r := r.(isMate := true);
      } else if pgn[i] == '=' {
        i := i + 1;
        r := r.(isPromotion := true, promotionPiece := CharAt(pgn, i));
      }
      i := i + 1;
    }
  }

  /** The scan never clears a flag. */
  lemma {:induction false} ScanConditionsMonotone(pgn: seq<char>, i: nat, c: Conditions)
    ensures var r := ScanConditions(pgn, i, c);
      (c.isCapture ==> r.isCapture) && (c.isCheck ==> r.isCheck) &&
      (c.isMate ==> r.isMate) && (c.isPromotion ==> r.isPromotion)
    decreases |pgn| - i
  {
    if i < |pgn| {
      var ch := pgn[i];
      if ch == 'x' {
        ScanConditionsMonotone(pgn, i + 1, c.(isCapture := true));
      } else if ch == '+' {
        ScanConditionsMonotone(pgn, i + 1, c.(isCheck := true));
      } else if ch == '#' {
        ScanConditionsMonotone(pgn, i + 1, c.(isMate := true));
      } else if ch == '=' {
        ScanConditionsMonotone(pgn, i + 2, c.(isPromotion := true, promotionPiece := CharAt(pgn, i + 1)));
      } else {
        ScanConditionsMonotone(pgn, i + 1, c);
      }
    }
  }

  /** A flag is set only if its sign occurs in the scanned text, and '=' sets the promotion
      flag exactly when it occurs. */
  lemma {:induction false} ScanConditionsSigns(pgn: seq<char>, i: nat, m: Conditions)
    requires i <= |pgn|
    ensures var r := ScanConditions(pgn, i, m);
      (r.isCapture ==> m.isCapture || 'x' in pgn[i..]) &&
      (r.isCheck ==> m.isCheck || '+' in pgn[i..]) &&
      (r.isMate ==> m.isMate || '#' in pgn[i..]) &&
      (r.isPromotion <==> m.isPromotion || '=' in pgn[i..])
    decreases |pgn| - i
  {
    if i < |pgn| {
      var c := pgn[i];
      assert pgn[i..] == [c] + pgn[i + 1..];
      if c == 'x' {
        ScanConditionsSigns(pgn, i + 1, m.(isCapture := true));
      } else if c == '+' {
        ScanConditionsSigns(pgn, i + 1, m.(isCheck := true));
      } else if c == '#' {
        ScanConditionsSigns(pgn, i + 1, m.(isMate := true));
      } else if c == '=' {
        var m' := m.(isPromotion := true, promotionPiece := CharAt(pgn, i + 1));
        if i + 2 <= |pgn| {
          ScanConditionsSigns(pgn, i + 2, m');
          assert pgn[i + 1..] == [pgn[i + 1]] + pgn[i + 2..];
        }
      } else {
        ScanConditionsSigns(pgn, i + 1, m);
      }
    }
  }

  /** Without a '=' in the scanned text each flag is set exactly when its sign occurs, and
      the promotion fields are untouched. */
  lemma {:induction false} ScanConditionsNoPromotion(pgn: seq<char>, i: nat, m: Conditions)
    requires i <= |pgn| && '=' !in pgn[i..]
    ensures var r := ScanConditions(pgn, i, m);
      r.isCapture == (m.isCapture || 'x' in pgn[i..]) &&
      r.isCheck == (m.isCheck || '+' in pgn[i..]) &&
      r.isMate == (m.isMate || '#' in pgn[i..]) &&
      r.isPromotion == m.isPromotion && r.promotionPiece == m.promotionPiece
    decreases |pgn| - i
  {
    if i < |pgn| {
      var c := pgn[i];
      assert pgn[i..] == [c] + pgn[i + 1..];
      if c == 'x' {
        ScanConditionsNoPromotion(pgn, i + 1, m.(isCapture := true));
      } else if c == '+' {
        ScanConditionsNoPromotion(pgn, i + 1, m.(isCheck := true));
      } else if c == '#' {
        ScanConditionsNoPromotion(pgn, i + 1, m.(isMate := true));
      } else {
        ScanConditionsNoPromotion(pgn, i + 1, m);
      }
    }
  }

  /** With one '=' at index e (no other '=' except possibly the character it swallows),
      the promotion piece is the character after it, or NUL when '=' ends the text, and
      each of the other three flags is set exactly when its sign occurs outside the
      swallowed character. */
  lemma {:induction false} ScanConditionsPromotionPiece(pgn: seq<char>, i: nat, m: Conditions, e: nat)
    requires i <= e < |pgn| && pgn[e] == '='
    requires forall q :: i <= q < |pgn| && q != e && q != e + 1 ==> pgn[q] != '='
    ensures ScanConditions(pgn, i, m).promotionPiece == CharAt(pgn, e + 1)
    ensures ScanConditions(pgn, i, m).isPromotion
    ensures var r := ScanConditions(pgn, i, m);
      var after := pgn[Min(e + 2, |pgn|)..];
      r.isCapture == (m.isCapture || 'x' in pgn[i..e] || 'x' in after) &&
      r.isCheck == (m.isCheck || '+' in pgn[i..e] || '+' in after) &&
      r.isMate == (m.isMate || '#' in pgn[i..e] || '#' in after)
    decreases |pgn| - i
  {
    var c := pgn[i];
    if i < e {
      assert pgn[i..e] == [c] + pgn[i + 1..e];
    }
    if i == e {
      var m' := m.(isPromotion := true, promotionPiece := CharAt(pgn, e + 1));
      if e + 2 <= |pgn| {
        ScanConditionsNoPromotion(pgn, e + 2, m');
      }
    } else if c == 'x' {
      ScanConditionsPromotionPiece(pgn, i + 1, m.(isCapture := true), e);
    } else if c == '+' {
      ScanConditionsPromotionPiece(pgn, i + 1, m.(isCheck := true), e);
    } else if c == '#' {
      ScanConditionsPromotionPiece(pgn, i + 1, m.(isMate := true), e);
    } else {
      ScanConditionsPromotionPiece(pgn, i + 1, m, e);
    }
  }

  /** Rank digit r in 1..SIZE is row SIZE - r; anything else (including NUL) is -1. */
  function RankToRow(c: char): (i: int)
    ensures -1 <= i < SIZE
  {
    if IsDigit(c) && 1 <= ToDigit(c) <= SIZE then SIZE - ToDigit(c) else -1
  }

  /** File letter 'a' + k with k < SIZE is column k; anything else (including NUL) is -1. */
  function FileToColumn(c: char): (j: int)
    ensures -1 <= j < SIZE
  {
    if 'a' <= c && (c as int) < ('a' as int) + SIZE then c as int - 'a' as int else -1
  }

  /** The rank digit of a row: the inverse of RankToRow. */
  function RowToRank(i: int): char
    requires 0 <= i < SIZE
  {
    DigitChar(SIZE - i)
  }

  /** The file letter of a column: the inverse of FileToColumn. */
  function ColumnToFile(j: int): char
    requires 0 <= j < SIZE
  {
    ('a' as int + j) as char
  }

  lemma CoordinateRoundTrip(i: int, j: int, rank: char, file: char)
    requires InBoard(i, j)
    ensures RankToRow(RowToRank(i)) == i && FileToColumn(ColumnToFile(j)) == j
    ensures RankToRow(rank) >= 0 ==> RowToRank(RankToRow(rank)) == rank
    ensures FileToColumn(file) >= 0 ==> ColumnToFile(FileToColumn(file)) == file
  {
  }

  /** convertSrcMatrixIndex: each hint becomes an index, or -1 when absent or off the board. */
  method ConvertSrcMatrixIndex(move: Move) returns (r: Move)
    requires move.srcRow == NUL || IsDigit(move.srcRow)
    ensures r == move.(iSrc := RankToRow(move.srcRow), jSrc := FileToColumn(move.srcCol))
  {
    r := move.(iSrc := -1);
    if move.srcRow != NUL {
      var iSrc := RowIndex(move.srcRow);
      if iSrc >= 0 {
        r := r.(iSrc := iSrc);
      }
    }
    r := r.(jSrc := -1);
    if move.srcCol != NUL {
      var jSrc := ColumnIndex(move.srcCol);
      if jSrc >= 0 {
        r := r.(jSrc := jSrc);
      }
    }
  }

  /** The rank loop shared by convertSrcMatrixIndex and convertDestMatrixIndex: rank digit
      k, 1 <= k <= SIZE, is row SIZE - k; -1 when the loop finds nothing. */
  method RowIndex(rank: char) returns (i: int)
    requires IsDigit(rank)
    ensures i == RankToRow(rank)
  {
    i := -1;
    var row := SIZE - 1;
    for k := 1 to SIZE + 1
      invariant row == SIZE - k
      invariant i == -1
      invariant !(1 <= ToDigit(rank) < k)
    {
      if ToDigit(rank) == k {
        i := row;
        break;
      }
      row := row - 1;
    }
  }

  /** The file loop shared by convertSrcMatrixIndex and convertDestMatrixIndex: file letter
      'a' + k, k < SIZE, is column k; -1 when the loop finds nothing. */
  method ColumnIndex(col: char) returns (j: int)
    ensures j == FileToColumn(col)
  {
    j := -1;
    var letter := 'a';
    for k := 0 to SIZE
      invariant letter as int == 'a' as int + k
      invariant j == -1
      invariant !('a' as int <= col as int < 'a' as int + k)
    {
      if col == letter {
        j := k;
        break;
      }
      letter := (letter as int + 1) as char;
    }
  }

  /** convertDestMatrixIndex: a rank or file the loops find sets the index; otherwise the
      index keeps its previous value. A rank that is not a digit, where the source's
      toDigit aborts, finds nothing here. */
  method ConvertDestMatrixIndex(move: Move) returns (r: Move)
    ensures r == move.(iDest := if RankToRow(move.destRow) >= 0 then RankToRow(move.destRow) else move.iDest,
                       jDest := if FileToColumn(move.destCol) >= 0 then FileToColumn(move.destCol) else move.jDest)
  {
    r := move;
    if IsDigit(move.destRow) {
      var iDest := RowIndex(move.destRow);
      if iDest >= 0 {
        r := r.(iDest := iDest);
      }
    }
    var jDest := ColumnIndex(move.destCol);
    if jDest >= 0 {
      r := r.(jDest := jDest);
    }
  }
}
