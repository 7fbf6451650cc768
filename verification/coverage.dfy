/**
 * Board-level queries over the piece list: the covered-square maps, the check
 * flags, the material test and the piece counts.
 */
module Coverage {
  import opened Wrappers
  import opened Utils
  import opened ChessTypes
  import opened Pieces
  import opened PieceRules

  /** Two 8x8 tables with equal cells are equal. */
  lemma GridExtensionality<T>(g: seq<seq<T>>, h: seq<seq<T>>)
    requires IsGrid(g) && IsGrid(h)
    requires forall x, y :: 0 <= x < 8 && 0 <= y < 8 ==> g[x][y] == h[x][y]
    ensures g == h
  {
    forall x | 0 <= x < 8
      ensures g[x] == h[x]
    {
      assert forall y :: 0 <= y < 8 ==> g[x][y] == h[x][y];
    }
  }

  // ---------------------------------------------------------------------
  // getCoveredSquares (board level)
  // ---------------------------------------------------------------------

  /** One of the first n list pieces has colour c and covers (x, y). */
  predicate CoveredAmong(b: Board, c: Colour, n: nat, x: int, y: int)
    requires IsGrid(b.squares) && n <= |b.pieces|
  {
    exists k :: 0 <= k < n && b.pieces[k].colour == c && Vector(x, y) in CoveredSquares(b, b.pieces[k])
  }

  /** The map of squares covered by colour c: a cell is true iff some piece of colour c covers it. */
  function CoveredMap(b: Board, c: Colour): (m: seq<seq<bool>>)
    requires IsGrid(b.squares)
    ensures IsGrid(m)
  {
    seq(8, x => seq(8, y => CoveredAmong(b, c, |b.pieces|, x, y)))
  }

  /** The covered map reads nothing of the board but its list and its grid. */
  lemma CoveredMapFrame(b1: Board, b2: Board, c: Colour)
    requires IsGrid(b1.squares) && b1.squares == b2.squares && b1.pieces == b2.pieces
    ensures CoveredMap(b1, c) == CoveredMap(b2, c)
  {
    forall k | 0 <= k < |b1.pieces| {
      CoveredSquaresFrame(b1, b2, b1.pieces[k]);
    }
    forall x, y | 0 <= x < 8 && 0 <= y < 8
      ensures CoveredMap(b1, c)[x][y] == CoveredMap(b2, c)[x][y]
    {
      assert CoveredAmong(b1, c, |b1.pieces|, x, y) == CoveredAmong(b2, c, |b2.pieces|, x, y);
    }
    GridExtensionality(CoveredMap(b1, c), CoveredMap(b2, c));
  }

  /** Set every listed square of the map to true. */
  method MarkSquares(m0: seq<seq<bool>>, spaces: seq<Vector>) returns (m: seq<seq<bool>>)
    requires IsGrid(m0)
    requires forall j :: 0 <= j < |spaces| ==> InBounds(spaces[j])
    ensures IsGrid(m)
    ensures forall x, y :: 0 <= x < 8 && 0 <= y < 8 ==> m[x][y] == (m0[x][y] || Vector(x, y) in spaces)
  {
    m := m0;
    var j := 0;
    while j < |spaces|
      invariant 0 <= j <= |spaces|
      invariant IsGrid(m)
      invariant forall x, y :: 0 <= x < 8 && 0 <= y < 8 ==> m[x][y] == (m0[x][y] || Vector(x, y) in spaces[..j])
    {
      var space := spaces[j];
      m := m[space.X := m[space.X][space.Y := true]];
      assert spaces[..j + 1] == spaces[..j] + [space];
      j := j + 1;
    }
    assert spaces[..j] == spaces;
  }

  /** Adding piece i to the pieces considered adds exactly its covered squares when it has colour c. */
  lemma CoveredAmongNext(b: Board, c: Colour, i: nat, x: int, y: int)
    requires IsGrid(b.squares) && i < |b.pieces|
    ensures CoveredAmong(b, c, i + 1, x, y) ==
            (CoveredAmong(b, c, i, x, y) || (b.pieces[i].colour == c && Vector(x, y) in CoveredSquares(b, b.pieces[i])))
  {
    if CoveredAmong(b, c, i + 1, x, y) && !CoveredAmong(b, c, i, x, y) {
      var k :| 0 <= k < i + 1 && b.pieces[k].colour == c && Vector(x, y) in CoveredSquares(b, b.pieces[k]);
      assert k == i;
    }
  }

  /** `Board.getCoveredSquares`: mark every square covered by a piece of colour c. */
  method GetCoveredMap(b: Board, c: Colour) returns (m: seq<seq<bool>>)
    requires IsGrid(b.squares) && AllInBounds(b.pieces)
    ensures m == CoveredMap(b, c)
  {
    m := seq(8, _ => seq(8, _ => false));
    var i := 0;
    while i < |b.pieces|
      invariant 0 <= i <= |b.pieces|
      invariant IsGrid(m)
      invariant forall x, y :: 0 <= x < 8 && 0 <= y < 8 ==> m[x][y] == CoveredAmong(b, c, i, x, y)
    {
      var piece := b.pieces[i];
      if piece.colour == c {
        var spaces := GetCoveredSquares(b, piece);
        forall j | 0 <= j < |spaces|
          ensures InBounds(spaces[j])
        {
          CoveredSquaresOnBoard(b, piece, spaces[j]);
        }
        m := MarkSquares(m, spaces);
      }
      forall x, y | 0 <= x < 8 && 0 <= y < 8
        ensures m[x][y] == CoveredAmong(b, c, i + 1, x, y)
      {
        CoveredAmongNext(b, c, i, x, y);
      }
      i := i + 1;
    }
    GridExtensionality(m, CoveredMap(b, c));
  }

  // ---------------------------------------------------------------------
  // getIsWhiteChecked / getIsBlackChecked
  // ---------------------------------------------------------------------

  /** Index of the first king of colour c in the list. */
  function FirstKing(ps: seq<Piece>, c: Colour): (r: Option<nat>)
    ensures r.Some? ==> r.value < |ps| && ps[r.value].kind == King && ps[r.value].colour == c
    ensures r.Some? ==> forall j :: 0 <= j < r.value ==> !(ps[j].kind == King && ps[j].colour == c)
    ensures r.None? <==> forall j :: 0 <= j < |ps| ==> !(ps[j].kind == King && ps[j].colour == c)
  {
    if ps == [] then None
    else if ps[0].kind == King && ps[0].colour == c then Some(0)
    else match FirstKing(ps[1..], c)
      case None => None
      case Some(i) => Some(i + 1)
  }

  /** The covered map recorded for the opponent of c. */
  function OpponentCover(b: Board, c: Colour): seq<seq<bool>> {
    if c == White then b.coveredSquaresBlack else b.coveredSquaresWhite
  }

  /**
   * Colour c is in check: the first king of colour c in the list stands on a
   * square the recorded opponent map marks; with no such king, not in check.
   */
  predicate KingCovered(b: Board, c: Colour)
    requires WellFormed(b)
  {
    var k := FirstKing(b.pieces, c);
    k.Some? && OpponentCover(b, c)[b.pieces[k.value].position.X][b.pieces[k.value].position.Y]
  }

  /** `getIsWhiteChecked` (c = White) and `getIsBlackChecked` (c = Black). */
  method GetIsChecked(b: Board, c: Colour) returns (checked: bool)
    requires WellFormed(b)
    ensures checked == KingCovered(b, c)
  {
    var i := 0;
    while i < |b.pieces|
      invariant 0 <= i <= |b.pieces|
      invariant forall j :: 0 <= j < i ==> !(b.pieces[j].kind == King && b.pieces[j].colour == c)
    {
      var piece := b.pieces[i];
      if piece.kind == King && piece.colour == c {
        var cover := if c == White then b.coveredSquaresBlack else b.coveredSquaresWhite;
        assert FirstKing(b.pieces, c) == Some(i);
        return cover[piece.position.X][piece.position.Y];
      }
      i := i + 1;
    }
    return false;
  }

  /**
   * With the recorded maps freshly computed, c is in check exactly when its
   * first king stands on a square some opponent piece covers.
   */
  lemma KingCoveredByOpponentPiece(b: Board, c: Colour)
    requires WellFormed(b)
    requires b.coveredSquaresWhite == CoveredMap(b, White) && b.coveredSquaresBlack == CoveredMap(b, Black)
    ensures KingCovered(b, c) <==>
            exists k, j :: 0 <= k < |b.pieces| && FirstKing(b.pieces, c) == Some(k)
                           && 0 <= j < |b.pieces| && b.pieces[j].colour == Opponent(c)
                           && b.pieces[k].position in CoveredSquares(b, b.pieces[j])
  {
    var f := FirstKing(b.pieces, c);
    if f.Some? {
      var v := b.pieces[f.value].position;
      assert v == Vector(v.X, v.Y);
      assert OpponentCover(b, c)[v.X][v.Y] == CoveredAmong(b, Opponent(c), |b.pieces|, v.X, v.Y);
    }
  }

  /** A colour without a king in the list is never in check. */
  lemma NoKingNoCheck(b: Board, c: Colour)
    requires WellFormed(b)
    requires forall j :: 0 <= j < |b.pieces| ==> !(b.pieces[j].kind == King && b.pieces[j].colour == c)
    ensures !KingCovered(b, c)
  {
  }

  // ---------------------------------------------------------------------
  // checkSufficientMaterial
  // ---------------------------------------------------------------------

  /** Colour c owns a piece other than a king. */
  predicate OwnsNonKing(ps: seq<Piece>, c: Colour) {
    exists k :: 0 <= k < |ps| && ps[k].colour == c && ps[k].kind != King
  }

  /**
   * `checkSufficientMaterial`. Because hasBishopOrPawn starts out true, a lone
   * knight or bishop already satisfies the test, so the answer is true exactly
   * when c owns any piece besides a king.
   */
  method CheckSufficientMaterial(b: Board, c: Colour) returns (sufficient: bool)
    ensures sufficient == OwnsNonKing(b.pieces, c)
  {
    var nCount := 0;
    var bCount := 0;
    var hasRook := false;
    var hasBishopOrPawn := true;
    var i := 0;
    while i < |b.pieces|
      invariant 0 <= i <= |b.pieces|
      invariant nCount == 0 && bCount == 0 && hasBishopOrPawn
      invariant forall j :: 0 <= j < i ==> !(b.pieces[j].colour == c && b.pieces[j].kind != King)
    {
      var piece := b.pieces[i];
      if piece.colour == c {
        if piece.kind == Pawn || piece.kind == Queen || piece.kind == Rook {
          return true;
        }
        if piece.kind == Knight {
          nCount := nCount + 1;
        }
        if piece.kind == Bishop {
          bCount := bCount + 1;
        }
      } else {
        if piece.kind == Rook {
          hasRook := true;
        }
        if piece.kind == Bishop || piece.kind == Pawn {
          hasBishopOrPawn := true;
        }
      }
      if nCount + bCount > 1 || (nCount == 1 && (hasRook || hasBishopOrPawn)) || (bCount == 1 && hasBishopOrPawn) {
        return true;
      }
      i := i + 1;
    }
    return false;
  }

  // ---------------------------------------------------------------------
  // noWhitePieces / noBlackPieces
  // ---------------------------------------------------------------------

  /** Number of list pieces of colour c. */
  function CountColour(ps: seq<Piece>, c: Colour): (n: nat)
    ensures n <= |ps|
    ensures n == 0 <==> forall k :: 0 <= k < |ps| ==> ps[k].colour != c
  {
    if ps == [] then 0
    else CountColour(ps[..|ps| - 1], c) + (if ps[|ps| - 1].colour == c then 1 else 0)
  }

  /** `noWhitePieces` (c = White) and `noBlackPieces` (c = Black). */
  method CountPieces(b: Board, c: Colour) returns (count: nat)
    ensures count == CountColour(b.pieces, c)
  {
    count := 0;
    var i := 0;
    while i < |b.pieces|
      invariant 0 <= i <= |b.pieces|
      invariant count == CountColour(b.pieces[..i], c)
    {
      if b.pieces[i].colour == c {
        count := count + 1;
      }
      assert b.pieces[..i + 1][..i] == b.pieces[..i];
      i := i + 1;
    }
    assert b.pieces[..i] == b.pieces;
  }

  /** Every piece is counted for exactly one side. */
  lemma {:induction false} CountsPartition(ps: seq<Piece>)
    ensures CountColour(ps, White) + CountColour(ps, Black) == |ps|
  {
    if ps != [] {
      CountsPartition(ps[..|ps| - 1]);
    }
  }
}
