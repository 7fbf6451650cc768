/**
 * Per-piece move generation: sliding rays, fixed offsets, pawn rules, castling
 * candidates, and the squares a piece covers. Each generator is specified by a
 * function; the methods build their lists with the source's loops.
 */
module Pieces {
  import opened Wrappers
  import opened Utils
  import opened ChessTypes

  /** The square `position.add(d.mult(s * m))`: step m of the s-half of direction d. */
  function Step(position: Vector, d: Vector, s: int, m: int): Vector {
    position.Add(d.Mult(s * m))
  }

  // ---------------------------------------------------------------------
  // Specification functions
  // ---------------------------------------------------------------------

  /**
   * The squares of one half-ray from step i on. The walk stops on leaving the
   * board or on the first occupied square; that square is kept when `covering`
   * (covered squares) or when it holds a piece of the other colour (moves).
   */
  function Ray(b: Board, p: Piece, d: Vector, s: int, i: nat, covering: bool): seq<Vector>
    requires IsGrid(b.squares)
    decreases 8 - i
  {
    if i >= 8 then []
    else
      var t := Step(p.position, d, s, i);
      if t.IsOutOfBounds() then []
      else match GetSquare(b, t.X, t.Y)
        case Some(q) => if covering || q.colour != p.colour then [t] else []
        case None => [t] + Ray(b, p, d, s, i + 1, covering)
  }

  /** Both halves of every direction in `ds`, in order. */
  function Rays(b: Board, p: Piece, ds: seq<Vector>, covering: bool): seq<Vector>
    requires IsGrid(b.squares)
  {
    if ds == [] then []
    else Rays(b, p, ds[..|ds| - 1], covering)
         + Ray(b, p, ds[|ds| - 1], 1, 1, covering) + Ray(b, p, ds[|ds| - 1], -1, 1, covering)
  }

  /** The offsets of `os` that land on the board and, unless `covering`, not on a friendly piece. */
  function Offsets(b: Board, p: Piece, os: seq<Vector>, covering: bool): seq<Vector>
    requires IsGrid(b.squares)
  {
    if os == [] then []
    else
      var t := p.position.Add(os[|os| - 1]);
      Offsets(b, p, os[..|os| - 1], covering)
      + if !t.IsOutOfBounds() && (covering || EmptyOrEnemy(b, t, p.colour)) then [t] else []
  }

  /** `getDirectionMoves`. */
  function DirectionMoves(b: Board, p: Piece): seq<Vector>
    requires IsGrid(b.squares)
  {
    Rays(b, p, MoveDirections(p.kind), false)
  }

  /** `canPawnMoveTwo`: a pawn on its starting rank (1 for White, 6 for Black). */
  predicate CanPawnMoveTwo(p: Piece)
    ensures CanPawnMoveTwo(p) ==> p.kind == Pawn && p.position.Y == (if p.colour == White then 1 else 6)
  {
    (p.colour == White && p.position.Y == 1 && p.kind == Pawn)
    || (p.colour == Black && p.position.Y == 6 && p.kind == Pawn)
  }

  /** `colour[:1]`: the first letter of the colour's name, "White" or "Black". */
  function Initial(c: Colour): string {
    if c == White then "W" else "B"
  }

  /** `Piece.toString`: "(sign, colour initial, (X, Y))". */
  function PieceString(p: Piece): (s: string)
    ensures |s| >= 14 && s[0] == '(' && s[|s| - 1] == ')'
    ensures s[1..2] == Sign(p.kind) && s[4..5] == Initial(p.colour)
  {
    "(" + Sign(p.kind) + ", " + Initial(p.colour) + ", " + ToString(p.position) + ")"
  }

  /** Different pieces print differently: type, colour and square can all be read back. */
  lemma PieceStringInjective(p: Piece, q: Piece)
    requires PieceString(p) == PieceString(q)
    ensures p == q
  {
    var s, t := PieceString(p), PieceString(q);
    assert s[1] == Sign(p.kind)[0] && t[1] == Sign(q.kind)[0];
    assert p.kind == q.kind by { SignInjective(p.kind, q.kind); }
    assert s[4] == Initial(p.colour)[0] && t[4] == Initial(q.colour)[0];
    assert s[7..|s| - 1] == ToString(p.position);
    assert t[7..|t| - 1] == ToString(q.position);
    ToStringInjective(p.position, q.position);
  }

  /** Each piece type has its own sign. */
  lemma SignInjective(k: Kind, l: Kind)
    requires Sign(k)[0] == Sign(l)[0]
    ensures k == l
  {
  }

  /** +1 for White, -1 for Black: the direction in which a pawn advances. */
  function Forward(c: Colour): int {
    if c == Black then -1 else 1
  }

  /** `getCastlingMoves`: right flag plus empty squares; the squares use (0, y) / (7, y). */
  function CastlingMoves(b: Board, p: Piece): seq<Vector>
    requires IsGrid(b.squares)
  {
    if p.colour == White then
      (if b.canWhiteQueenSideCastle && GetSquare(b, 0, 1).None? && GetSquare(b, 0, 2).None? && GetSquare(b, 0, 3).None?
       then [Vector(0, 2)] else [])
      + (if b.canWhiteKingSideCastle && GetSquare(b, 0, 5).None? && GetSquare(b, 0, 6).None?
         then [Vector(0, 6)] else [])
    else
      (if b.canBlackQueenSideCastle && GetSquare(b, 7, 1).None? && GetSquare(b, 7, 2).None? && GetSquare(b, 7, 3).None?
       then [Vector(7, 2)] else [])
      + (if b.canBlackKingSideCastle && GetSquare(b, 7, 5).None? && GetSquare(b, 7, 6).None?
         then [Vector(7, 6)] else [])
  }

  /** The grid piece at (x, y) is a pawn whose own position field is on the en-passant file. */
  predicate EnPassantNeighbour(b: Board, x: int, y: int)
    requires IsGrid(b.squares) && 0 <= x < 8 && 0 <= y < 8
  {
    var q := GetSquare(b, x, y);
    q.Some? && q.value.kind == Pawn && q.value.position.X == b.enPassantRank
  }

  /** The grid piece at (x, y) has the other colour than c. */
  predicate EnemyAt(b: Board, x: int, y: int, c: Colour)
    requires IsGrid(b.squares) && 0 <= x < 8 && 0 <= y < 8
  {
    GetSquare(b, x, y).Some? && GetSquare(b, x, y).value.colour != c
  }

  /** `getPawnMoves`: push, the two diagonals (capture, then en passant), double push. */
  function PawnMoves(b: Board, p: Piece): seq<Vector>
    requires IsGrid(b.squares) && InBounds(p.position)
  {
    var dir := Forward(p.colour);
    var x, y := p.position.X, p.position.Y;
    var push := if y + dir > 0 && y + dir < 8 && GetSquare(b, x, y + dir).None? then [Vector(x, y + dir)] else [];
    var double :=
      if CanPawnMoveTwo(p) && GetSquare(b, x, y + dir).None? && GetSquare(b, x, y + 2 * dir).None?
      then [Vector(x, y + 2 * dir)] else [];
    push + PawnDiagonal(b, p, 1) + PawnDiagonal(b, p, -1) + double
  }

  /**
   * One forward diagonal (`side` 1 is the x + 1 file, -1 the x - 1 file): the
   * square when it holds an enemy, and the square again when the side
   * neighbour is a pawn on the en-passant file.
   */
  function PawnDiagonal(b: Board, p: Piece, side: int): seq<Vector>
    requires IsGrid(b.squares) && InBounds(p.position)
  {
    var dir := Forward(p.colour);
    var x, y := p.position.X, p.position.Y;
    if 0 <= x + side < 8 && y + dir >= 0 && y + dir < 8 then
      (if EnemyAt(b, x + side, y + dir, p.colour) then [Vector(x + side, y + dir)] else [])
      + (if EnPassantNeighbour(b, x + side, y) then [Vector(x + side, y + dir)] else [])
    else []
  }

  /** `Piece.getPossibleMoves`: pseudo-legal destinations. */
  function PossibleMoves(b: Board, p: Piece): seq<Vector>
    requires IsGrid(b.squares) && InBounds(p.position)
  {
    DirectionMoves(b, p) + Offsets(b, p, OtherMoves(p.kind), false)
    + (if p.kind == King then CastlingMoves(b, p) else [])
    + (if p.kind == Pawn then PawnMoves(b, p) else [])
  }

  /** The forward diagonals a pawn covers, whatever stands on them. */
  function PawnCover(p: Piece): seq<Vector> {
    var x, y, dir := p.position.X, p.position.Y, Forward(p.colour);
    (if x != 0 then [Vector(x - 1, y + dir)] else []) + (if x != 7 then [Vector(x + 1, y + dir)] else [])
  }

  /** `Piece.getCoveredSquares`. */
  function CoveredSquares(b: Board, p: Piece): seq<Vector>
    requires IsGrid(b.squares)
  {
    var sliding := Rays(b, p, MoveDirections(p.kind), true);
    if p.kind == Pawn then
      if p.position.Y == 7 || p.position.Y == 0 then [] else sliding + PawnCover(p)
    else sliding + Offsets(b, p, OtherMoves(p.kind), true)
  }

  // ---------------------------------------------------------------------
  // Methods: the source's loops
  // ---------------------------------------------------------------------

  /**
   * One half-ray loop, appending to `found`: the source's `for i := 1; i < 8; i++`
   * (s = 1) and `for i := -1; i > -8; i--` (s = -1, stepping d.mult(s * i)).
   */
  method WalkHalfRay(b: Board, p: Piece, direction: Vector, s: int, covering: bool, found0: seq<Vector>)
    returns (found: seq<Vector>)
    requires IsGrid(b.squares)
    ensures found == found0 + Ray(b, p, direction, s, 1, covering)
  {
    found := found0;
    var i := 1;
    while i < 8
      invariant 1 <= i <= 8
      invariant found + Ray(b, p, direction, s, i, covering) == found0 + Ray(b, p, direction, s, 1, covering)
    {
      var moveTo := p.position.Add(direction.Mult(s * i));
      assert moveTo == Step(p.position, direction, s, i);
      if moveTo.IsOutOfBounds() {
        break;
      }
      var occupying := GetSquare(b, moveTo.X, moveTo.Y);
      if occupying.Some? {
        if covering || occupying.value.colour != p.colour {
          found := found + [moveTo];
        }
        break;
      }
      found := found + [moveTo];
      i := i + 1;
    }
  }

  /** Both half-ray loops of one direction. */
  method WalkDirection(b: Board, p: Piece, direction: Vector, covering: bool, found0: seq<Vector>)
    returns (found: seq<Vector>)
    requires IsGrid(b.squares)
    ensures found == found0 + Ray(b, p, direction, 1, 1, covering) + Ray(b, p, direction, -1, 1, covering)
  {
    found := WalkHalfRay(b, p, direction, 1, covering, found0);
    found := WalkHalfRay(b, p, direction, -1, covering, found);
  }

  /** `getDirectionMoves` (covering = false) and the sliding part of `getCoveredSquares` (covering = true). */
  method GetRays(b: Board, p: Piece, covering: bool) returns (found: seq<Vector>)
    requires IsGrid(b.squares)
    ensures found == Rays(b, p, MoveDirections(p.kind), covering)
  {
    var directions := MoveDirections(p.kind);
    found := [];
    var k := 0;
    while k < |directions|
      invariant 0 <= k <= |directions|
      invariant found == Rays(b, p, directions[..k], covering)
    {
      found := WalkDirection(b, p, directions[k], covering, found);
      assert directions[..k + 1][..k] == directions[..k];
      k := k + 1;
    }
    assert directions[..k] == directions;
  }

  /** `getDirectionMoves`. */
  method GetDirectionMoves(b: Board, p: Piece) returns (found: seq<Vector>)
    requires IsGrid(b.squares)
    ensures found == DirectionMoves(b, p)
  {
    found := GetRays(b, p, false);
  }

  /** The loop over `otherMoves`, appending to `found`. */
  method WalkOffsets(b: Board, p: Piece, offsets: seq<Vector>, covering: bool, found0: seq<Vector>)
    returns (found: seq<Vector>)
    requires IsGrid(b.squares)
    ensures found == found0 + Offsets(b, p, offsets, covering)
  {
    found := found0;
    var k := 0;
    while k < |offsets|
      invariant 0 <= k <= |offsets|
      invariant found == found0 + Offsets(b, p, offsets[..k], covering)
    {
      var moveTo := p.position.Add(offsets[k]);
      if !moveTo.IsOutOfBounds() {
        var occupying := GetSquare(b, moveTo.X, moveTo.Y);
        if covering || occupying.None? || occupying.value.colour != p.colour {
          found := found + [moveTo];
        }
      }
      assert offsets[..k + 1][..k] == offsets[..k];
      k := k + 1;
    }
    assert offsets[..k] == offsets;
  }

  /** `Piece.getPossibleMoves`. */
  method GetPossibleMoves(b: Board, p: Piece) returns (found: seq<Vector>)
    requires IsGrid(b.squares) && InBounds(p.position)
    ensures found == PossibleMoves(b, p)
  {
    found := GetDirectionMoves(b, p);
    found := WalkOffsets(b, p, OtherMoves(p.kind), false, found);
    if p.kind == King {
      found := found + CastlingMoves(b, p);
    }
    if p.kind == Pawn {
      found := found + PawnMoves(b, p);
    }
  }

  /** `Piece.getCoveredSquares`. */
  method GetCoveredSquares(b: Board, p: Piece) returns (covered: seq<Vector>)
    requires IsGrid(b.squares)
    ensures covered == CoveredSquares(b, p)
  {
    covered := GetRays(b, p, true);
    if p.kind == Pawn {
      if p.position.Y == 7 || p.position.Y == 0 {
        return [];
      }
      covered := covered + PawnCover(p);
    } else {
      covered := WalkOffsets(b, p, OtherMoves(p.kind), true, covered);
    }
  }

  /** Linear search of a move list for a square. */
  method Contains(moves: seq<Vector>, target: Vector) returns (found: bool)
    ensures found <==> target in moves
  {
    var i := 0;
    while i < |moves|
      invariant 0 <= i <= |moves|
      invariant target !in moves[..i]
    {
      if moves[i].X == target.X && moves[i].Y == target.Y {
        return true;
      }
      assert moves[..i + 1] == moves[..i] + [moves[i]];
      i := i + 1;
    }
    assert moves[..i] == moves;
    return false;
  }

  /** `isProtecting`: same colour, and `other` stands on one of p's possible moves. */
  method IsProtecting(p: Piece, other: Piece, b: Board) returns (r: bool)
    requires IsGrid(b.squares) && InBounds(p.position)
    ensures r <==> p.colour == other.colour && other.position in PossibleMoves(b, p)
  {
    if p.colour != other.colour {
      return false;
    }
    var moves := GetPossibleMoves(b, p);
    r := Contains(moves, other.position);
  }

  /** `isAttacking`: other colour, and `other` stands on one of p's possible moves. */
  method IsAttacking(p: Piece, other: Piece, b: Board) returns (r: bool)
    requires IsGrid(b.squares) && InBounds(p.position)
    ensures r <==> p.colour != other.colour && other.position in PossibleMoves(b, p)
  {
    if p.colour == other.colour {
      return false;
    }
    var moves := GetPossibleMoves(b, p);
    r := Contains(moves, other.position);
  }

  /** `canTake`: membership in p's possible moves, with no colour test. */
  method CanTake(p: Piece, other: Piece, b: Board) returns (r: bool)
    requires IsGrid(b.squares) && InBounds(p.position)
    ensures r <==> other.position in PossibleMoves(b, p)
  {
    var moves := GetPossibleMoves(b, p);
    r := Contains(moves, other.position);
  }
}
