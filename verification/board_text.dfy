/**
 * `Board.ToString` (board.go, lines 224-275): a FEN-like text of the board.
 * Unlike FEN (section 16.1 of the PGN standard) the ranks run from rank 1 up,
 * each is followed by `/` (the last one too), piece letters do not show the
 * colour, and there is no en passant field.
 */
module BoardText {
  import opened Wrappers
  import opened Utils
  import opened ChessTypes

  /** `strings.ToUpper` on ASCII text. */
  function Upper(s: string): (u: string)
    ensures |u| == |s|
    ensures forall i :: 0 <= i < |s| && !('a' <= s[i] <= 'z') ==> u[i] == s[i]
  {
    seq(|s|, i requires 0 <= i < |s| => if 'a' <= s[i] <= 'z' then (s[i] as int - 32) as char else s[i])
  }

  /** Lines 231-235: the letter printed for a piece, upper-cased for White. */
  function PieceLetter(p: Piece): string {
    if p.colour == White then Upper(Sign(p.kind)) else Sign(p.kind)
  }

  /** Every sign is already upper-case, so the printed letter is the same for both colours. */
  lemma PieceLetterIgnoresColour(p: Piece)
    ensures PieceLetter(p) == Sign(p.kind)
    ensures PieceLetter(p) == PieceLetter(p.(colour := Opponent(p.colour)))
  {
    var s := Sign(p.kind);
    assert Upper(s)[0] == s[0];
  }

  /** `strconv.Itoa` of a pending run of empty squares, if there is one. */
  function Flush(blanks: nat): string {
    if blanks > 0 then Dec(blanks) else ""
  }

  /** The cells of rank y, files 0 to 7: `squares[x][y]`. */
  function RankCells(b: Board, y: int): (cells: seq<Option<Piece>>)
    requires IsGrid(b.squares) && 0 <= y < 8
    ensures |cells| == 8
  {
    seq(8, x requires 0 <= x < 8 => b.squares[x][y])
  }

  /**
   * The text for the cells `cells` when `blanks` empty squares precede them:
   * a piece flushes the pending run and prints its letter; an empty cell
   * lengthens the run; the run left at the end is flushed.
   */
  function RankText(cells: seq<Option<Piece>>, blanks: nat): string {
    if cells == [] then Flush(blanks)
    else if cells[0].Some? then Flush(blanks) + PieceLetter(cells[0].value) + RankText(cells[1..], 0)
    else RankText(cells[1..], blanks + 1)
  }

  /** Lines 226-248: ranks 0 to n-1, each followed by `/`. */
  function Ranks(b: Board, n: nat): string
    requires IsGrid(b.squares) && n <= 8
  {
    if n == 0 then "" else Ranks(b, n - 1) + RankText(RankCells(b, n - 1), 0) + "/"
  }

  /** Lines 256-271: the castling letters K, Q, k, q in that order, or `-` when no right is left. */
  function CastlingText(b: Board): string {
    var s := CastlingLetters(b);
    if s == "" then "-" else s
  }

  function CastlingLetters(b: Board): string {
    (if b.canWhiteKingSideCastle then "K" else "")
    + (if b.canWhiteQueenSideCastle then "Q" else "")
    + (if b.canBlackKingSideCastle then "k" else "")
    + (if b.canBlackQueenSideCastle then "q" else "")
  }

  /** The castling field lists exactly the rights that are left, and is `-` exactly when none is. */
  lemma CastlingField(b: Board)
    ensures CastlingText(b) == "-" <==>
            !b.canWhiteKingSideCastle && !b.canWhiteQueenSideCastle && !b.canBlackKingSideCastle && !b.canBlackQueenSideCastle
    ensures 'K' in CastlingText(b) <==> b.canWhiteKingSideCastle
    ensures 'Q' in CastlingText(b) <==> b.canWhiteQueenSideCastle
    ensures 'k' in CastlingText(b) <==> b.canBlackKingSideCastle
    ensures 'q' in CastlingText(b) <==> b.canBlackQueenSideCastle
    ensures 1 <= |CastlingText(b)| <= 4
  {
    var s := CastlingLetters(b);
    assert forall c :: c in s ==> c in "KQkq";
    if s != "" {
      assert s[0] in s;
    }
  }

  /** The whole text: the ranks, the side to move, the castling field, the fifty-move count and the move number. */
  function BoardString(b: Board): string
    requires IsGrid(b.squares)
  {
    Ranks(b, 8) + (if b.colourToMove == White then " w " else " b ") + CastlingText(b)
    + " " + Dec(b.fiftyMoveCounter) + " " + Dec(b.moveCounter)
  }

  // ---------------------------------------------------------------------
  // Each rank accounts for eight squares
  // ---------------------------------------------------------------------

  /** The squares a rank text accounts for: a digit stands for that many empty squares, any other character for one piece. */
  function Width(s: string): nat {
    if s == [] then 0
    else Width(s[..|s| - 1]) + (if IsDigit(s[|s| - 1]) then s[|s| - 1] as int - '0' as int else 1)
  }

  lemma {:induction false} WidthAppend(s: string, t: string)
    ensures Width(s + t) == Width(s) + Width(t)
    decreases |t|
  {
    if t != [] {
      WidthAppend(s, t[..|t| - 1]);
      assert (s + t)[..|s + t| - 1] == s + t[..|t| - 1];
      assert (s + t)[|s + t| - 1] == t[|t| - 1];
    } else {
      assert s + t == s;
    }
  }

  lemma FlushWidth(blanks: nat)
    requires blanks <= 9
    ensures Width(Flush(blanks)) == blanks
  {
    if blanks > 0 {
      assert Flush(blanks) == [DigitChar(blanks)];
      assert Flush(blanks)[..0] == [];
    }
  }

  lemma LetterWidth(p: Piece)
    ensures Width(PieceLetter(p)) == 1
  {
    PieceLetterIgnoresColour(p);
    var s := Sign(p.kind);
    assert s[..0] == [];
  }

  /** A rank text accounts for the pending run plus one square per cell, as long as no run exceeds nine. */
  lemma {:induction false} RankWidth(cells: seq<Option<Piece>>, blanks: nat)
    requires |cells| + blanks <= 9
    ensures Width(RankText(cells, blanks)) == |cells| + blanks
  {
    if cells == [] {
      FlushWidth(blanks);
    } else if cells[0].Some? {
      RankWidth(cells[1..], 0);
      FlushWidth(blanks);
      LetterWidth(cells[0].value);
      WidthAppend(Flush(blanks), PieceLetter(cells[0].value));
      WidthAppend(Flush(blanks) + PieceLetter(cells[0].value), RankText(cells[1..], 0));
    } else {
      RankWidth(cells[1..], blanks + 1);
    }
  }

  /** Every rank of the text accounts for exactly eight squares. */
  lemma EightSquaresPerRank(b: Board, y: int)
    requires IsGrid(b.squares) && 0 <= y < 8
    ensures Width(RankText(RankCells(b, y), 0)) == 8
  {
    RankWidth(RankCells(b, y), 0);
  }

  // ---------------------------------------------------------------------
  // The text does not show colours
  // ---------------------------------------------------------------------

  /** Two grids with the same piece types on the same squares, whatever their colours. */
  predicate SameShape(g: Grid, h: Grid)
    requires IsGrid(g) && IsGrid(h)
  {
    forall x, y :: 0 <= x < 8 && 0 <= y < 8 ==>
      g[x][y].Some? == h[x][y].Some? && (g[x][y].Some? ==> g[x][y].value.kind == h[x][y].value.kind)
  }

  lemma {:induction false} RankTextShape(cells: seq<Option<Piece>>, others: seq<Option<Piece>>, blanks: nat)
    requires |cells| == |others|
    requires forall i :: 0 <= i < |cells| ==>
               cells[i].Some? == others[i].Some? && (cells[i].Some? ==> cells[i].value.kind == others[i].value.kind)
    ensures RankText(cells, blanks) == RankText(others, blanks)
  {
    if cells != [] {
      if cells[0].Some? {
        PieceLetterIgnoresColour(cells[0].value);
        PieceLetterIgnoresColour(others[0].value);
        RankTextShape(cells[1..], others[1..], 0);
      } else {
        RankTextShape(cells[1..], others[1..], blanks + 1);
      }
    }
  }

  lemma {:induction false} RanksShape(b: Board, c: Board, n: nat)
    requires IsGrid(b.squares) && IsGrid(c.squares) && n <= 8 && SameShape(b.squares, c.squares)
    ensures Ranks(b, n) == Ranks(c, n)
  {
    if n > 0 {
      RanksShape(b, c, n - 1);
      RankTextShape(RankCells(b, n - 1), RankCells(c, n - 1), 0);
    }
  }

  /**
   * Colour is not encoded: boards with the same piece types on the same
   * squares and the same side, rights and counters print alike, even when
   * every piece has changed sides.
   */
  lemma ColourBlind(b: Board, c: Board)
    requires IsGrid(b.squares) && IsGrid(c.squares) && SameShape(b.squares, c.squares)
    requires b.colourToMove == c.colourToMove
    requires b.canWhiteKingSideCastle == c.canWhiteKingSideCastle && b.canWhiteQueenSideCastle == c.canWhiteQueenSideCastle
    requires b.canBlackKingSideCastle == c.canBlackKingSideCastle && b.canBlackQueenSideCastle == c.canBlackQueenSideCastle
    requires b.fiftyMoveCounter == c.fiftyMoveCounter && b.moveCounter == c.moveCounter
    ensures BoardString(b) == BoardString(c)
  {
    RanksShape(b, c, 8);
  }

  // ---------------------------------------------------------------------
  // The loops
  // ---------------------------------------------------------------------

  /** `ToString` (lines 224-275). */
  method ToString(b: Board) returns (out: string)
    requires IsGrid(b.squares)
    ensures out == BoardString(b)
  {
    out := WriteRanks(b);
    if b.colourToMove == White {
      out := out + " w ";
    } else {
      out := out + " b ";
    }
    var castling := WriteCastling(b);
    out := out + castling + " " + Dec(b.fiftyMoveCounter) + " " + Dec(b.moveCounter);
  }

  /** Lines 226-248: the outer loop over the ranks. */
  method WriteRanks(b: Board) returns (out: string)
    requires IsGrid(b.squares)
    ensures out == Ranks(b, 8)
  {
    out := "";
    var y := 0;
    while y < 8
      invariant 0 <= y <= 8
      invariant out == Ranks(b, y)
    {
      var rank := WriteRank(b, y);
      out := out + rank + "/";
      y := y + 1;
    }
  }

  /** Lines 256-271: the castling field. */
  method WriteCastling(b: Board) returns (castling: string)
    ensures castling == CastlingText(b)
  {
    castling := "";
    if b.canWhiteKingSideCastle {
      castling := castling + "K";
    }
    if b.canWhiteQueenSideCastle {
      castling := castling + "Q";
    }
    if b.canBlackKingSideCastle {
      castling := castling + "k";
    }
    if b.canBlackQueenSideCastle {
      castling := castling + "q";
    }
    if !b.canWhiteKingSideCastle && !b.canWhiteQueenSideCastle && !b.canBlackKingSideCastle && !b.canBlackQueenSideCastle {
      castling := castling + "-";
    }
  }

  /** One cell further along a rank text. */
  lemma RankTextStep(cells: seq<Option<Piece>>, x: nat, blanks: nat)
    requires x < |cells|
    ensures cells[x].Some? ==> RankText(cells[x..], blanks) == Flush(blanks) + PieceLetter(cells[x].value) + RankText(cells[x + 1..], 0)
    ensures cells[x].None? ==> RankText(cells[x..], blanks) == RankText(cells[x + 1..], blanks + 1)
  {
    assert cells[x..][1..] == cells[x + 1..];
  }

  lemma Regroup(a: string, b: string, c: string, d: string)
    ensures a + (b + c + d) == a + b + c + d
  {
  }

  /** Lines 228-246 for one rank: the inner loop with its run counter, and the final flush. */
  method WriteRank(b: Board, y: int) returns (out: string)
    requires IsGrid(b.squares) && 0 <= y < 8
    ensures out == RankText(RankCells(b, y), 0)
  {
    ghost var cells := RankCells(b, y);
    out := "";
    var blankSpaceCounter := 0;
    var x := 0;
    while x < 8
      invariant 0 <= x <= 8
      invariant out + RankText(cells[x..], blankSpaceCounter) == RankText(cells, 0)
    {
      RankTextStep(cells, x, blankSpaceCounter);
      if b.squares[x][y].Some? {
        ghost var before := out;
        ghost var flushed := Flush(blankSpaceCounter);
        if blankSpaceCounter > 0 {
          out := out + Dec(blankSpaceCounter);
          blankSpaceCounter := 0;
        } else {
          assert out + flushed == out;
        }
        out := out + PieceLetter(b.squares[x][y].value);
        Regroup(before, flushed, PieceLetter(cells[x].value), RankText(cells[x + 1..], 0));
      } else {
        blankSpaceCounter := blankSpaceCounter + 1;
      }
      x := x + 1;
    }
    if blankSpaceCounter > 0 {
      out := out + Dec(blankSpaceCounter);
    }
  }
}
