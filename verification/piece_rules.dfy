/**
 * What the move generators of `Pieces` produce, stated square by square: the
 * sliding, fixed-offset, pawn and castling rules as written in the source.
 */
module PieceRules {
  import opened Wrappers
  import opened Utils
  import opened ChessTypes
  import opened Pieces

  /**
   * t is step k (k >= i) of the s-half of direction d from p, on the board, every
   * step from i to k - 1 is an empty square, and t itself qualifies: any square
   * when covering, otherwise an empty or enemy-occupied one.
   */
  predicate OnRay(b: Board, p: Piece, d: Vector, s: int, i: nat, k: int, t: Vector, covering: bool)
    requires IsGrid(b.squares)
  {
    && i <= k < 8
    && t == Step(p.position, d, s, k)
    && InBounds(t)
    && (forall m :: i <= m < k ==> Free(b, Step(p.position, d, s, m)))
    && (covering || EmptyOrEnemy(b, t, p.colour))
  }

  /** A half-ray holds exactly the squares reached through empty squares, up to and including the first blocker when it qualifies. */
  lemma {:induction false} RayMembership(b: Board, p: Piece, d: Vector, s: int, i: nat, covering: bool, t: Vector)
    requires IsGrid(b.squares)
    ensures t in Ray(b, p, d, s, i, covering) <==> exists k :: OnRay(b, p, d, s, i, k, t, covering)
    decreases 8 - i
  {
    if i < 8 {
      var t0 := Step(p.position, d, s, i);
      if t0.IsOutOfBounds() {
        assert !Free(b, t0);
        forall k | OnRay(b, p, d, s, i, k, t, covering) ensures false {
        }
      } else if GetSquare(b, t0.X, t0.Y).Some? {
        assert !Free(b, t0);
        forall k | OnRay(b, p, d, s, i, k, t, covering) ensures k == i {
        }
        if t in Ray(b, p, d, s, i, covering) {
          assert OnRay(b, p, d, s, i, i, t, covering);
        }
      } else {
        RayMembership(b, p, d, s, i + 1, covering, t);
        if t in Ray(b, p, d, s, i, covering) {
          if t == t0 {
            assert OnRay(b, p, d, s, i, i, t, covering);
          } else {
            var k :| OnRay(b, p, d, s, i + 1, k, t, covering);
            assert OnRay(b, p, d, s, i, k, t, covering);
          }
        }
        if exists k :: OnRay(b, p, d, s, i, k, t, covering) {
          var k :| OnRay(b, p, d, s, i, k, t, covering);
          if k > i {
            assert OnRay(b, p, d, s, i + 1, k, t, covering);
          }
        }
      }
    }
  }

  /** The rays of a direction list: a square is in them iff it lies on a qualifying half-ray of one of the directions. */
  lemma {:induction false} RaysMembership(b: Board, p: Piece, ds: seq<Vector>, covering: bool, t: Vector)
    requires IsGrid(b.squares)
    ensures t in Rays(b, p, ds, covering) <==>
            exists j, s, k :: 0 <= j < |ds| && (s == 1 || s == -1) && OnRay(b, p, ds[j], s, 1, k, t, covering)
  {
    if ds != [] {
      var last := ds[|ds| - 1];
      var front := ds[..|ds| - 1];
      RaysMembership(b, p, front, covering, t);
      RayMembership(b, p, last, 1, 1, covering, t);
      RayMembership(b, p, last, -1, 1, covering, t);
      if exists j, s, k :: 0 <= j < |ds| && (s == 1 || s == -1) && OnRay(b, p, ds[j], s, 1, k, t, covering) {
        var j, s, k :| 0 <= j < |ds| && (s == 1 || s == -1) && OnRay(b, p, ds[j], s, 1, k, t, covering);
        if j < |ds| - 1 {
          assert front[j] == ds[j];
        }
      }
      if exists j, s, k :: 0 <= j < |front| && (s == 1 || s == -1) && OnRay(b, p, front[j], s, 1, k, t, covering) {
        var j, s, k :| 0 <= j < |front| && (s == 1 || s == -1) && OnRay(b, p, front[j], s, 1, k, t, covering);
        assert ds[j] == front[j];
      }
    }
  }

  /**
   * `getDirectionMoves`: every square is on the board at position + d * i for a
   * declared direction d and i in 1..7 or -7..-1, every square strictly between
   * is empty, and the square is empty or enemy-occupied; and every such square
   * is produced.
   */
  lemma DirectionMovesRule(b: Board, p: Piece, t: Vector)
    requires IsGrid(b.squares)
    ensures t in DirectionMoves(b, p) <==>
            exists j, s, k :: 0 <= j < |MoveDirections(p.kind)| && (s == 1 || s == -1)
                              && OnRay(b, p, MoveDirections(p.kind)[j], s, 1, k, t, false)
  {
    RaysMembership(b, p, MoveDirections(p.kind), false, t);
  }

  /** Fixed offsets: kept iff on the board and, unless covering, empty or enemy-occupied. */
  lemma {:induction false} OffsetsMembership(b: Board, p: Piece, os: seq<Vector>, covering: bool, t: Vector)
    requires IsGrid(b.squares)
    ensures t in Offsets(b, p, os, covering) <==>
            exists j :: 0 <= j < |os| && t == p.position.Add(os[j]) && InBounds(t)
                        && (covering || EmptyOrEnemy(b, t, p.colour))
  {
    if os != [] {
      var front := os[..|os| - 1];
      var last := p.position.Add(os[|os| - 1]);
      assert Offsets(b, p, os, covering) == Offsets(b, p, front, covering)
             + if !last.IsOutOfBounds() && (covering || EmptyOrEnemy(b, last, p.colour)) then [last] else [];
      OffsetsMembership(b, p, front, covering, t);
      if exists j :: 0 <= j < |os| && t == p.position.Add(os[j]) && InBounds(t)
                     && (covering || EmptyOrEnemy(b, t, p.colour)) {
        var j :| 0 <= j < |os| && t == p.position.Add(os[j]) && InBounds(t)
                 && (covering || EmptyOrEnemy(b, t, p.colour));
        if j < |os| - 1 {
          assert front[j] == os[j];
        }
      }
      if exists j :: 0 <= j < |front| && t == p.position.Add(front[j]) && InBounds(t)
                     && (covering || EmptyOrEnemy(b, t, p.colour)) {
        var j :| 0 <= j < |front| && t == p.position.Add(front[j]) && InBounds(t)
                 && (covering || EmptyOrEnemy(b, t, p.colour));
        assert os[j] == front[j];
      }
    }
  }

  /**
   * `getPawnMoves`, square by square: a single push onto an empty square strictly
   * inside ranks 1..7 of travel; a forward diagonal that holds an enemy or whose
   * side neighbour is a pawn (of either colour) on the en-passant file, with no
   * test of the diagonal square itself; a double push from the starting rank over
   * two empty squares.
   */
  lemma PawnMovesRule(b: Board, p: Piece, t: Vector)
    requires IsGrid(b.squares) && InBounds(p.position)
    ensures var x, y, dir := p.position.X, p.position.Y, Forward(p.colour);
            t in PawnMoves(b, p) <==>
              || (t == Vector(x, y + dir) && 0 < y + dir < 8 && Free(b, t))
              || (t.Y == y + dir && (t.X == x + 1 || t.X == x - 1) && InBounds(t)
                  && (EnemyAt(b, t.X, t.Y, p.colour) || EnPassantNeighbour(b, t.X, y)))
              || (t == Vector(x, y + 2 * dir) && CanPawnMoveTwo(p)
                  && Free(b, Vector(x, y + dir)) && Free(b, t))
  {
    var dir := Forward(p.colour);
    var x, y := p.position.X, p.position.Y;
    assert t in PawnDiagonal(b, p, 1) <==> t == Vector(x + 1, y + dir) && InBounds(t)
                                            && (EnemyAt(b, t.X, t.Y, p.colour) || EnPassantNeighbour(b, t.X, y));
    assert t in PawnDiagonal(b, p, -1) <==> t == Vector(x - 1, y + dir) && InBounds(t)
                                             && (EnemyAt(b, t.X, t.Y, p.colour) || EnPassantNeighbour(b, t.X, y));
  }

  /** A Black pawn on rank index 1 has no single push: the guard demands 0 < y + dir. */
  lemma BlackPawnOnSecondRankCannotPush(b: Board, p: Piece)
    requires IsGrid(b.squares) && InBounds(p.position)
    requires p.kind == Pawn && p.colour == Black && p.position.Y == 1
    ensures Vector(p.position.X, 0) !in PawnMoves(b, p)
  {
    PawnMovesRule(b, p, Vector(p.position.X, 0));
  }

  /**
   * Castling candidates: (0, 2) / (0, 6) for White and (7, 2) / (7, 6) for Black,
   * that is, with file and rank transposed; each needs its right flag and its
   * listed squares empty, and nothing is said about attacked squares.
   */
  lemma CastlingMovesRule(b: Board, p: Piece, t: Vector)
    requires IsGrid(b.squares)
    ensures var home := if p.colour == White then 0 else 7;
            var queenSide := if p.colour == White then b.canWhiteQueenSideCastle else b.canBlackQueenSideCastle;
            var kingSide := if p.colour == White then b.canWhiteKingSideCastle else b.canBlackKingSideCastle;
            t in CastlingMoves(b, p) <==>
              || (t == Vector(home, 2) && queenSide && GetSquare(b, home, 1).None?
                  && GetSquare(b, home, 2).None? && GetSquare(b, home, 3).None?)
              || (t == Vector(home, 6) && kingSide && GetSquare(b, home, 5).None? && GetSquare(b, home, 6).None?)
  {
  }

  /** Consequently the FIDE destinations c1 = (2, 0) and g1 = (6, 0) are never castling candidates. */
  lemma CastlingNeverReachesFideSquares(b: Board, p: Piece)
    requires IsGrid(b.squares)
    ensures Vector(2, 0) !in CastlingMoves(b, p) && Vector(6, 0) !in CastlingMoves(b, p)
  {
    CastlingMovesRule(b, p, Vector(2, 0));
    CastlingMovesRule(b, p, Vector(6, 0));
  }

  /** A pawn covers nothing on rank 0 or 7, and otherwise exactly its on-board forward diagonals. */
  lemma PawnCoveredRule(b: Board, p: Piece, t: Vector)
    requires IsGrid(b.squares) && p.kind == Pawn && InBounds(p.position)
    ensures p.position.Y == 0 || p.position.Y == 7 ==> CoveredSquares(b, p) == []
    ensures 0 < p.position.Y < 7 ==>
              (t in CoveredSquares(b, p) <==>
                 t.Y == p.position.Y + Forward(p.colour) && (t.X == p.position.X - 1 || t.X == p.position.X + 1)
                 && InBounds(t))
  {
  }

  /** Covered squares of a non-pawn: the rays up to and including the first occupied square of either colour, and every on-board offset. */
  lemma CoveredSquaresRule(b: Board, p: Piece, t: Vector)
    requires IsGrid(b.squares) && p.kind != Pawn
    ensures t in CoveredSquares(b, p) <==>
            || (exists j, s, k :: 0 <= j < |MoveDirections(p.kind)| && (s == 1 || s == -1)
                                 && OnRay(b, p, MoveDirections(p.kind)[j], s, 1, k, t, true))
            || (exists j :: 0 <= j < |OtherMoves(p.kind)| && t == p.position.Add(OtherMoves(p.kind)[j]) && InBounds(t))
  {
    RaysMembership(b, p, MoveDirections(p.kind), true, t);
    OffsetsMembership(b, p, OtherMoves(p.kind), true, t);
  }

  /** Every pseudo-legal destination is on the board. */
  lemma PossibleMovesOnBoard(b: Board, p: Piece, t: Vector)
    requires IsGrid(b.squares) && InBounds(p.position)
    requires t in PossibleMoves(b, p)
    ensures InBounds(t)
  {
    RaysMembership(b, p, MoveDirections(p.kind), false, t);
    OffsetsMembership(b, p, OtherMoves(p.kind), false, t);
    if p.kind == Pawn {
      PawnMovesRule(b, p, t);
    }
  }

  /** Every covered square of an on-board piece is on the board. */
  lemma CoveredSquaresOnBoard(b: Board, p: Piece, t: Vector)
    requires IsGrid(b.squares) && InBounds(p.position)
    requires t in CoveredSquares(b, p)
    ensures InBounds(t)
  {
    RaysMembership(b, p, MoveDirections(p.kind), true, t);
    OffsetsMembership(b, p, OtherMoves(p.kind), true, t);
  }

  // ---------------------------------------------------------------------
  // Covered squares read nothing of the board but its grid
  // ---------------------------------------------------------------------

  lemma {:induction false} RayFrame(b1: Board, b2: Board, p: Piece, d: Vector, s: int, i: nat, covering: bool)
    requires IsGrid(b1.squares) && b1.squares == b2.squares
    ensures Ray(b1, p, d, s, i, covering) == Ray(b2, p, d, s, i, covering)
    decreases 8 - i
  {
    if i < 8 {
      RayFrame(b1, b2, p, d, s, i + 1, covering);
    }
  }

  lemma {:induction false} RaysFrame(b1: Board, b2: Board, p: Piece, ds: seq<Vector>, covering: bool)
    requires IsGrid(b1.squares) && b1.squares == b2.squares
    ensures Rays(b1, p, ds, covering) == Rays(b2, p, ds, covering)
  {
    if ds != [] {
      RaysFrame(b1, b2, p, ds[..|ds| - 1], covering);
      RayFrame(b1, b2, p, ds[|ds| - 1], 1, 1, covering);
      RayFrame(b1, b2, p, ds[|ds| - 1], -1, 1, covering);
    }
  }

  lemma {:induction false} OffsetsFrame(b1: Board, b2: Board, p: Piece, os: seq<Vector>, covering: bool)
    requires IsGrid(b1.squares) && b1.squares == b2.squares
    ensures Offsets(b1, p, os, covering) == Offsets(b2, p, os, covering)
  {
    if os != [] {
      OffsetsFrame(b1, b2, p, os[..|os| - 1], covering);
    }
  }

  /** Two boards with the same grid give every piece the same covered squares. */
  lemma CoveredSquaresFrame(b1: Board, b2: Board, p: Piece)
    requires IsGrid(b1.squares) && b1.squares == b2.squares
    ensures CoveredSquares(b1, p) == CoveredSquares(b2, p)
  {
    RaysFrame(b1, b2, p, MoveDirections(p.kind), true);
    OffsetsFrame(b1, b2, p, OtherMoves(p.kind), true);
  }
}
