/**
 * `Board.MakeMove`: the successor board for one piece moving to one square.
 *
 * The source works on a clone whose list and grid share piece objects. Here the
 * grid holds piece values, and the list index of each object that is changed
 * after its entry may have moved (the moving piece and the castling rook) is
 * carried through the swap-with-last removals. Each change to such an object is
 * written to both its grid cell and its list entry.
 */
module Moves {
  import opened Wrappers
  import opened Utils
  import opened ChessTypes
  import opened Pieces
  import opened Coverage

  // ---------------------------------------------------------------------
  // List and grid surgery
  // ---------------------------------------------------------------------

  /** Index of the first list piece standing on v. */
  function FirstAt(ps: seq<Piece>, v: Vector): (r: Option<nat>)
    ensures r.Some? ==> r.value < |ps| && ps[r.value].position == v
    ensures r.Some? ==> forall j :: 0 <= j < r.value ==> ps[j].position != v
    ensures r.None? <==> forall j :: 0 <= j < |ps| ==> ps[j].position != v
  {
    if ps == [] then None
    else if ps[0].position == v then Some(0)
    else match FirstAt(ps[1..], v)
      case None => None
      case Some(i) => Some(i + 1)
  }

  /**
   * A write through a pointer into the list: the entry the tracked index names
   * (if it still exists) becomes `p`.
   */
  function Overwrite(ps: seq<Piece>, j: Option<nat>, p: Piece): (r: seq<Piece>)
    requires j.Some? ==> j.value < |ps|
    ensures |r| == |ps|
    ensures forall i :: 0 <= i < |ps| ==> r[i] == (if j == Some(i) then p else ps[i])
    ensures AllInBounds(ps) && InBounds(p.position) ==> AllInBounds(r)
  {
    if j.Some? then ps[j.value := p] else ps
  }

  /** `pieces[i] = pieces[len-1]; pieces = pieces[:len-1]`. */
  function SwapRemove(ps: seq<Piece>, i: nat): (r: seq<Piece>)
    requires i < |ps|
    ensures |r| == |ps| - 1
    ensures forall k :: 0 <= k < |r| ==> r[k] == if k == i then ps[|ps| - 1] else ps[k]
    ensures AllInBounds(ps) ==> AllInBounds(r)
  {
    ps[i := ps[|ps| - 1]][..|ps| - 1]
  }

  /** Removing entry i drops exactly one copy of ps[i] and keeps every other piece. */
  lemma SwapRemoveMultiset(ps: seq<Piece>, i: nat)
    requires i < |ps|
    ensures multiset(SwapRemove(ps, i)) + multiset{ps[i]} == multiset(ps)
  {
    var n := |ps| - 1;
    if i == n {
      assert ps == SwapRemove(ps, i) + [ps[i]];
    } else {
      assert ps == ps[..i] + [ps[i]] + ps[i + 1..n] + [ps[n]];
      assert SwapRemove(ps, i) == ps[..i] + [ps[n]] + ps[i + 1..n];
    }
  }

  /**
   * Where the entry formerly at index j of a list of length n sits after
   * SwapRemove at i: gone if it was entry i, at i if it was the last entry,
   * unmoved otherwise.
   */
  function Track(j: Option<nat>, i: nat, n: nat): (t: Option<nat>)
    requires i < n && (j.Some? ==> j.value < n)
    ensures t.Some? ==> t.value < n - 1
    ensures t.None? <==> j.None? || j.value == i
  {
    if j.None? || j.value == i then None
    else if j.value == n - 1 then Some(i)
    else j
  }

  /** Tracking follows the object: the tracked index holds the same piece after the removal. */
  lemma TrackSound(ps: seq<Piece>, i: nat, j: nat)
    requires i < |ps| && j < |ps|
    ensures var t := Track(Some(j), i, |ps|);
            t.Some? ==> SwapRemove(ps, i)[t.value] == ps[j]
  {
  }

  /** The remove-first-match loop used for captures and en passant. */
  method RemoveFirstAt(ps: seq<Piece>, v: Vector) returns (rest: seq<Piece>, removed: Option<nat>)
    ensures removed == FirstAt(ps, v)
    ensures rest == if removed.Some? then SwapRemove(ps, removed.value) else ps
  {
    var i := 0;
    while i < |ps|
      invariant 0 <= i <= |ps|
      invariant forall j :: 0 <= j < i ==> ps[j].position != v
    {
      if ps[i].position == v {
        rest := ps[i := ps[|ps| - 1]];
        rest := rest[..|rest| - 1];
        removed := Some(i);
        return;
      }
      i := i + 1;
    }
    return ps, None;
  }

  /** `squares[v.x][v.y] = o`. */
  function SetCell(g: Grid, v: Vector, o: Option<Piece>): (r: Grid)
    requires IsGrid(g) && InBounds(v)
    ensures IsGrid(r) && r[v.X][v.Y] == o
    ensures forall x, y :: 0 <= x < 8 && 0 <= y < 8 && (x != v.X || y != v.Y) ==> r[x][y] == g[x][y]
  {
    g[v.X := g[v.X][v.Y := o]]
  }

  // ---------------------------------------------------------------------
  // The stages of MakeMove
  // ---------------------------------------------------------------------

  /** A rook relocation: the corner square read from the grid and the file written into the rook. */
  datatype Castle = Castle(corner: Vector, file: int)

  /**
   * The relocation a king of colour c landing on `move` triggers: file 2 with the
   * queen-side right moves the corner rook on file 0 to file 3, file 6 with the
   * king-side right moves the corner rook on file 7 to file 5.
   */
  function CastleCorner(b: Board, c: Colour, move: Vector): (r: Option<Castle>)
    ensures r.Some? ==> InBounds(r.value.corner) && r.value.corner != move && 0 <= r.value.file < 8
    ensures r.Some? ==> r.value.corner.Y == (if c == White then 0 else 7)
    ensures r.Some? ==> (move.X == 2 || move.X == 6)
                        && r.value.corner.X == (if move.X == 2 then 0 else 7)
                        && r.value.file == (if move.X == 2 then 3 else 5)
  {
    if move.X == 2 then
      if c == White && b.canWhiteQueenSideCastle then Some(Castle(Vector(0, 0), 3))
      else if c == Black && b.canBlackQueenSideCastle then Some(Castle(Vector(0, 7), 3))
      else None
    else if move.X == 6 then
      if c == White && b.canWhiteKingSideCastle then Some(Castle(Vector(7, 0), 5))
      else if c == Black && b.canBlackKingSideCastle then Some(Castle(Vector(7, 7), 5))
      else None
    else None
  }

  /** Every grid cell holds a piece whose own position is that cell. */
  predicate CellsAtHome(g: Grid)
    requires IsGrid(g)
  {
    forall x, y :: 0 <= x < 8 && 0 <= y < 8 && g[x][y].Some? ==> g[x][y].value.position == Vector(x, y)
  }

  lemma SetCellAtHome(g: Grid, v: Vector, o: Option<Piece>)
    requires IsGrid(g) && CellsAtHome(g) && InBounds(v)
    requires o.Some? ==> o.value.position == v
    ensures CellsAtHome(SetCell(g, v, o))
  {
  }

  lemma GridOfAtHome(ps: seq<Piece>)
    requires AllInBounds(ps)
    ensures CellsAtHome(GridOf(ps))
  {
    forall x, y | 0 <= x < 8 && 0 <= y < 8 {
      GridOfCell(ps, x, y);
    }
  }

  /**
   * The clone during MakeMove: list and grid, the moving piece and the list
   * indices of the moving piece and of the castling corner's piece (if still
   * listed), whether a piece was captured, the fifty-move count, the en-passant
   * file and the move text.
   */
  datatype Displaced = Displaced(
    pieces: seq<Piece>,
    squares: Grid,
    mover: Piece,
    moverAt: Option<nat>,
    rookAt: Option<nat>,
    captured: bool,
    fifty: int,
    ep: int,
    lastMove: string)

  predicate ValidDisplaced(d: Displaced) {
    && IsGrid(d.squares)
    && CellsAtHome(d.squares)
    && AllInBounds(d.pieces)
    && InBounds(d.mover.position)
    && (d.moverAt.Some? ==> d.moverAt.value < |d.pieces|)
    && (d.rookAt.Some? ==> d.rookAt.value < |d.pieces|)
  }

  /** The capture of lines 319-329: remove the first list piece on `move`, tracking two indices. */
  function Capture(ps: seq<Piece>, move: Vector, j: Option<nat>, k: Option<nat>): (r: (seq<Piece>, Option<nat>, Option<nat>))
    requires AllInBounds(ps)
    requires j.Some? ==> j.value < |ps|
    requires k.Some? ==> k.value < |ps|
    ensures AllInBounds(r.0)
    ensures r.1.Some? ==> r.1.value < |r.0|
    ensures r.2.Some? ==> r.2.value < |r.0|
  {
    var c := FirstAt(ps, move);
    if c.None? then (ps, j, k)
    else (SwapRemove(ps, c.value), Track(j, c.value, |ps|), Track(k, c.value, |ps|))
  }

  /** Lines 340-341: the mover is written on its destination, then its origin is cleared. */
  function Lift(g: Grid, from: Vector, mover: Piece): (r: Grid)
    requires IsGrid(g) && CellsAtHome(g) && InBounds(from) && InBounds(mover.position)
    ensures IsGrid(r) && CellsAtHome(r)
    ensures r[from.X][from.Y].None?
    ensures mover.position != from ==> r[mover.position.X][mover.position.Y] == Some(mover)
    ensures forall x, y :: 0 <= x < 8 && 0 <= y < 8 && Vector(x, y) != mover.position && Vector(x, y) != from ==>
              r[x][y] == g[x][y]
  {
    var g1 := SetCell(g, mover.position, Some(mover));
    SetCellAtHome(g, mover.position, Some(mover));
    SetCellAtHome(g1, from, None);
    SetCell(g1, from, None)
  }

  /**
   * Lines 313-344 of MakeMove, for the grid piece j0 standing on the origin:
   * clone, move text, capture, fifty-move count, en-passant file, relocation.
   */
  function Relocate(b: Board, piece: Piece, move: Vector, j0: nat): (d: Displaced)
    requires WellFormed(b) && InBounds(piece.position) && InBounds(move) && j0 < |b.pieces|
    ensures ValidDisplaced(d) && d.mover.position == move
  {
    var from := piece.position;
    var pd := b.pieces[j0];
    var grid0 := GridOf(b.pieces);
    var castle := CastleCorner(b, pd.colour, move);
    var k0 := if castle.Some? then LastAt(b.pieces, castle.value.corner) else None;
    var lastMove := Sign(piece.kind) + BoardPosition(from) + BoardPosition(move) + " ";
    var captured := grid0[move.X][move.Y].Some?;
    var (ps1, j1, k1) := if captured then Capture(b.pieces, move, Some(j0), k0) else (b.pieces, Some(j0), k0);
    var fifty := if captured || piece.kind == Pawn then 0 else b.fiftyMoveCounter + 1;
    var ep := if pd.kind == Pawn && from.Y % 5 == 1 && (move.Y == 3 || move.Y == 4) then from.X else -1;
    var mover := pd.(position := move);
    GridOfAtHome(b.pieces);
    var ps2 := Overwrite(ps1, j1, mover);
    Displaced(ps2, Lift(grid0, from, mover), mover, j1, k1, captured, fifty, ep, lastMove)
  }

  /**
   * Lines 346-359: when the moved piece is a pawn and the new en-passant file is
   * the destination file, remove the first list piece one rank behind the
   * destination (seen from `colour`); the grid is not touched.
   */
  function TakeEnPassant(d: Displaced, move: Vector, colour: Colour): (r: Displaced)
    requires ValidDisplaced(d)
    ensures ValidDisplaced(r)
    ensures r == d.(pieces := r.pieces, moverAt := r.moverAt, rookAt := r.rookAt)
  {
    var e := if d.mover.kind == Pawn && d.ep == move.X then FirstAt(d.pieces, Vector(move.X, move.Y - Forward(colour))) else None;
    if e.None? then d
    else d.(pieces := SwapRemove(d.pieces, e.value),
            moverAt := Track(d.moverAt, e.value, |d.pieces|),
            rookAt := Track(d.rookAt, e.value, |d.pieces|))
  }

  /** Lines 313-359 of MakeMove. */
  function Displace(b: Board, piece: Piece, move: Vector, j0: nat): (d: Displaced)
    requires WellFormed(b) && InBounds(piece.position) && InBounds(move) && j0 < |b.pieces|
    ensures ValidDisplaced(d) && d.mover.position == move
  {
    TakeEnPassant(Relocate(b, piece, move, j0), move, piece.colour)
  }

  /** A pawn reaching the far rank of its colour (as the source tests it: the `piece` argument's type and colour). */
  predicate Promoting(piece: Piece, move: Vector) {
    ((move.Y == 0 && piece.colour == Black) || (move.Y == 7 && piece.colour == White)) && piece.kind == Pawn
  }

  /**
   * Lines 402-442: a king move clears both rights of its colour; a rook move
   * from file 7 (0) that ends on its home rank clears the king-side (queen-side)
   * right; any move onto a corner clears that corner's right.
   */
  function RevokeRights(nb: Board, from: Vector, mover: Piece): (r: Board)
    ensures r == nb.(canWhiteKingSideCastle := r.canWhiteKingSideCastle,
                     canWhiteQueenSideCastle := r.canWhiteQueenSideCastle,
                     canBlackKingSideCastle := r.canBlackKingSideCastle,
                     canBlackQueenSideCastle := r.canBlackQueenSideCastle)
  {
    var move := mover.position;
    var whiteKing := mover.kind == King && mover.colour == White;
    var blackKing := mover.kind == King && mover.colour != White;
    var whiteRook := mover.kind == Rook && mover.colour == White;
    var blackRook := mover.kind == Rook && mover.colour != White;
    nb.(canWhiteKingSideCastle := nb.canWhiteKingSideCastle && !whiteKing
                                  && !(whiteRook && from.X == 7 && move.Y == 0) && move != Vector(7, 0),
        canWhiteQueenSideCastle := nb.canWhiteQueenSideCastle && !whiteKing
                                   && !(whiteRook && from.X == 0 && move.Y == 0) && move != Vector(0, 0),
        canBlackKingSideCastle := nb.canBlackKingSideCastle && !blackKing
                                  && !(blackRook && from.X == 7 && move.Y == 7) && move != Vector(7, 7),
        canBlackQueenSideCastle := nb.canBlackQueenSideCastle && !blackKing
                                   && !(blackRook && from.X == 0 && move.Y == 7) && move != Vector(0, 7))
  }

  /** Lines 394-400: recompute both covered maps from the new list and grid, then both check flags. */
  function Recover(nb: Board): (r: Board)
    requires IsGrid(nb.squares) && AllInBounds(nb.pieces)
    ensures WellFormed(r)
  {
    var covered := nb.(coveredSquaresBlack := CoveredMap(nb, Black), coveredSquaresWhite := CoveredMap(nb, White));
    covered.(isBlackChecked := KingCovered(covered, Black), isWhiteChecked := KingCovered(covered, White))
  }

  /**
   * Lines 367-369: the moving piece takes the promotion type, in its grid cell
   * (unless the origin was the destination and the cell was cleared) and in its
   * list entry; "=" and the type's sign are appended to the move text.
   */
  function Promote(d: Displaced, from: Vector, kind: Kind): (r: Displaced)
    requires ValidDisplaced(d)
    ensures ValidDisplaced(r)
  {
    var mover := d.mover.(kind := kind);
    var move := d.mover.position;
    SetCellAtHome(d.squares, move, Some(mover));
    d.(mover := mover,
       squares := if move != from then SetCell(d.squares, move, Some(mover)) else d.squares,
       pieces := Overwrite(d.pieces, d.moverAt, mover),
       lastMove := d.lastMove + "=" + Sign(kind))
  }

  /**
   * Lines 374-391 for one relocation: the grid piece on the corner gets the new
   * file in its own position (in its grid cell, which stays on the corner, and in
   * its list entry). An empty corner is a nil dereference.
   */
  function MoveRook(d: Displaced, c: Castle): (r: Option<Displaced>)
    requires ValidDisplaced(d) && InBounds(c.corner) && 0 <= c.file < 8
    ensures r.Some? ==> IsGrid(r.value.squares) && AllInBounds(r.value.pieces)
    ensures r.None? <==> d.squares[c.corner.X][c.corner.Y].None?
  {
    var cell := d.squares[c.corner.X][c.corner.Y];
    if cell.None? then None
    else
      var rook := cell.value.(position := Vector(c.file, cell.value.position.Y));
      Some(d.(squares := SetCell(d.squares, c.corner, Some(rook)),
              pieces := Overwrite(d.pieces, d.rookAt, rook)))
  }

  /** Lines 373-392, rook part: only a king of the right colour landing on file 2 or 6 with the right triggers it. */
  function Castling(b: Board, d: Displaced, move: Vector): (r: Option<Displaced>)
    requires ValidDisplaced(d)
    ensures r.Some? ==> IsGrid(r.value.squares) && AllInBounds(r.value.pieces)
  {
    var castle := if d.mover.kind == King then CastleCorner(b, d.mover.colour, move) else None;
    if castle.Some? then MoveRook(d, castle.value) else Some(d)
  }

  /** Lines 394-449: covered maps, check flags, castling rights, side to move and move number. */
  function Conclude(b: Board, placed: Board, from: Vector, mover: Piece): (r: Board)
    requires IsGrid(placed.squares) && AllInBounds(placed.pieces)
    ensures WellFormed(r)
  {
    var rights := RevokeRights(Recover(placed), from, mover);
    rights.(colourToMove := Opponent(b.colourToMove),
            moveCounter := if b.colourToMove == White then b.moveCounter + 1 else b.moveCounter)
  }

  /**
   * `MakeMove(piece, move, promotion)` on a board whose pieces stand on the
   * board, for an origin and a destination on the board. It panics (a nil
   * dereference) when no piece stands on the origin of the rebuilt grid, or when
   * a castling rook is looked up on an empty corner. A promotion that is due but
   * not given returns the half-updated clone: side to move, covered maps and
   * castling rights as before.
   */
  function ApplyMove(b: Board, piece: Piece, move: Vector, promotion: Option<Kind>): (r: Result<Board>)
    requires WellFormed(b) && InBounds(piece.position) && InBounds(move)
    ensures r.Ok? ==> WellFormed(r.value)
  {
    var j0 := LastAt(b.pieces, piece.position);
    if j0.None? then Failed(NilDereference)
    else Complete(b, piece, move, promotion, Displace(b, piece, move, j0.value))
  }

  /** The clone as the relocation left it: every other field as on the receiver. */
  function Unfinished(b: Board, d: Displaced): Board {
    b.(pieces := d.pieces, squares := d.squares, enPassantRank := d.ep,
       lastMoveString := d.lastMove, fiftyMoveCounter := d.fifty)
  }

  /** Where MakeMove stands after the promotion and the castling relocation. */
  datatype Stage = Halted(outcome: Result<Board>) | Placed(board: Board, mover: Piece)

  /**
   * Lines 361-392: a due promotion without a type returns the clone as it is; a
   * promotion retypes the moving piece; a king landing on file 2 or 6 relocates
   * the corner rook (if the right is held) and renames the move.
   */
  function PromoteAndCastle(b: Board, piece: Piece, move: Vector, promotion: Option<Kind>, d: Displaced): (s: Stage)
    requires ValidDisplaced(d) && InBounds(piece.position)
    ensures s.Placed? ==> IsGrid(s.board.squares) && AllInBounds(s.board.pieces)
  {
    var early := Unfinished(b, d);
    if Promoting(piece, move) && promotion.None? then Halted(Ok(early))
    else
      var d1 := if Promoting(piece, move) then Promote(d, piece.position, promotion.value) else d;
      var d2 := Castling(b, d1, move);
      if d2.None? then Halted(Failed(NilDereference))
      else
        var lastMove :=
          if d1.mover.kind == King && move.X == 2 then "O-O-O"
          else if d1.mover.kind == King && move.X == 6 then "O-O"
          else d1.lastMove;
        Placed(early.(pieces := d2.value.pieces, squares := d2.value.squares, lastMoveString := lastMove), d1.mover)
  }

  /** Lines 361-449, after the relocation and the en-passant removal. */
  function Complete(b: Board, piece: Piece, move: Vector, promotion: Option<Kind>, d: Displaced): (r: Result<Board>)
    requires WellFormed(b) && ValidDisplaced(d) && InBounds(piece.position)
    ensures r.Ok? ==> WellFormed(r.value)
  {
    match PromoteAndCastle(b, piece, move, promotion, d)
    case Halted(outcome) => outcome
    case Placed(placed, mover) => Ok(Conclude(b, placed, piece.position, mover))
  }

  // ---------------------------------------------------------------------
  // MakeMove, step by step
  // ---------------------------------------------------------------------

  /** Lines 319-329: the capture loop, keeping track of two list indices. */
  method CapturePiece(ps: seq<Piece>, move: Vector, j: Option<nat>, k: Option<nat>)
    returns (rest: seq<Piece>, j1: Option<nat>, k1: Option<nat>)
    requires AllInBounds(ps)
    requires j.Some? ==> j.value < |ps|
    requires k.Some? ==> k.value < |ps|
    ensures (rest, j1, k1) == Capture(ps, move, j, k)
  {
    var removed: Option<nat>;
    rest, removed := RemoveFirstAt(ps, move);
    j1, k1 := j, k;
    if removed.Some? {
      j1 := Track(j, removed.value, |ps|);
      k1 := Track(k, removed.value, |ps|);
    }
  }

  /** Lines 313-344: clone (the grid rebuilt from the list), capture, counters, relocation. */
  method RelocatePiece(b: Board, piece: Piece, move: Vector, j0: nat) returns (d: Displaced)
    requires WellFormed(b) && InBounds(piece.position) && InBounds(move) && j0 < |b.pieces|
    ensures d == Relocate(b, piece, move, j0)
  {
    var from := piece.position;
    var squares: Grid := BuildGrid(b.pieces);
    var pieceDouble := b.pieces[j0];
    var castle := CastleCorner(b, pieceDouble.colour, move);
    var rookAt := if castle.Some? then LastAt(b.pieces, castle.value.corner) else None;
    var lastMove := Sign(piece.kind) + BoardPosition(from) + BoardPosition(move) + " ";
    var fifty := b.fiftyMoveCounter + 1;
    var pieces := b.pieces;
    var moverAt: Option<nat> := Some(j0);
    var captured := false;
    if squares[move.X][move.Y].Some? {
      captured := true;
      fifty := 0;
      pieces, moverAt, rookAt := CapturePiece(b.pieces, move, moverAt, rookAt);
    }
    if piece.kind == Pawn {
      fifty := 0;
    }
    var ep := -1;
    if pieceDouble.kind == Pawn && from.Y % 5 == 1 && (move.Y == 3 || move.Y == 4) {
      ep := from.X;
    }
    var mover := pieceDouble.(position := move);
    squares := squares[move.X := squares[move.X][move.Y := Some(mover)]];
    squares := squares[from.X := squares[from.X][from.Y := None]];
    GridOfAtHome(b.pieces);
    assert squares == Lift(GridOf(b.pieces), from, mover);
    pieces := Overwrite(pieces, moverAt, mover);
    d := Displaced(pieces, squares, mover, moverAt, rookAt, captured, fifty, ep, lastMove);
  }

  /** Lines 346-359: the en-passant removal loop. */
  method RemoveEnPassant(d0: Displaced, move: Vector, colour: Colour) returns (d: Displaced)
    requires ValidDisplaced(d0)
    ensures d == TakeEnPassant(d0, move, colour)
  {
    d := d0;
    if d0.mover.kind == Pawn && d0.ep == move.X {
      var dir := if colour == Black then -1 else 1;
      var rest, removed := RemoveFirstAt(d0.pieces, Vector(move.X, move.Y - dir));
      if removed.Some? {
        d := d.(pieces := rest,
                moverAt := Track(d0.moverAt, removed.value, |d0.pieces|),
                rookAt := Track(d0.rookAt, removed.value, |d0.pieces|));
      }
    }
  }

  /** Lines 394-400: both covered maps, then both check flags. */
  method RecoverCoverage(placed: Board) returns (r: Board)
    requires IsGrid(placed.squares) && AllInBounds(placed.pieces)
    ensures r == Recover(placed)
  {
    var black := GetCoveredMap(placed, Black);
    var white := GetCoveredMap(placed, White);
    r := placed.(coveredSquaresBlack := black, coveredSquaresWhite := white);
    var blackChecked := GetIsChecked(r, Black);
    var whiteChecked := GetIsChecked(r, White);
    r := r.(isBlackChecked := blackChecked, isWhiteChecked := whiteChecked);
  }

  /** Lines 394-449: coverage, rights, side to move and move number. */
  method Finish(b: Board, placed: Board, from: Vector, mover: Piece) returns (r: Board)
    requires IsGrid(placed.squares) && AllInBounds(placed.pieces)
    ensures r == Conclude(b, placed, from, mover)
  {
    r := RecoverCoverage(placed);
    r := RevokeRights(r, from, mover);
    if b.colourToMove == White {
      r := r.(colourToMove := Black, moveCounter := b.moveCounter + 1);
    } else {
      r := r.(colourToMove := White, moveCounter := b.moveCounter);
    }
  }

  /** `Board.MakeMove`. */
  method MakeMove(b: Board, piece: Piece, move: Vector, promotion: Option<Kind>) returns (r: Result<Board>)
    requires WellFormed(b) && InBounds(piece.position) && InBounds(move)
    ensures r == ApplyMove(b, piece, move, promotion)
  {
    var j0 := LastAt(b.pieces, piece.position);
    if j0.None? {
      return Failed(NilDereference);
    }
    var d := RelocatePiece(b, piece, move, j0.value);
    d := RemoveEnPassant(d, move, piece.colour);
    var stage := PromoteAndCastle(b, piece, move, promotion, d);
    if stage.Halted? {
      return stage.outcome;
    }
    var next := Finish(b, stage.board, piece.position, stage.mover);
    return Ok(next);
  }
}
