/**
 * What one call of MakeMove does to the board: counters, en-passant file,
 * castling rights, the destination and origin cells, the list length, the
 * rook relocation, fresh coverage, and when it panics.
 */
module MoveRules {
  import opened Wrappers
  import opened Utils
  import opened ChessTypes
  import opened Pieces
  import opened Coverage
  import opened Moves

  /** The piece the rebuilt grid holds on the origin: the last list entry standing there. */
  function Origin(b: Board, from: Vector): (o: Option<Piece>)
    ensures o.Some? ==> o.value in b.pieces && o.value.position == from
    ensures o.None? <==> forall j :: 0 <= j < |b.pieces| ==> b.pieces[j].position != from
  {
    var j := LastAt(b.pieces, from);
    if j.Some? then Some(b.pieces[j.value]) else None
  }

  /** A due promotion without a type: MakeMove returns the half-updated clone. */
  predicate Halts(piece: Piece, move: Vector, promotion: Option<Kind>) {
    Promoting(piece, move) && promotion.None?
  }

  /** The type the moving piece ends with. */
  function MoverKind(o: Piece, piece: Piece, move: Vector, promotion: Option<Kind>): Kind {
    if Promoting(piece, move) && promotion.Some? then promotion.value else o.kind
  }

  /** The corner a king's castling relocation would look up, for the mover as promoted. */
  function CastleFor(b: Board, mover: Piece, move: Vector): Option<Castle> {
    if mover.kind == King then CastleCorner(b, mover.colour, move) else None
  }

  predicate Legal(b: Board, piece: Piece, move: Vector) {
    WellFormed(b) && InBounds(piece.position) && InBounds(move)
  }

  /** The stages of one call, named once for the lemmas below. */
  lemma Stages(b: Board, piece: Piece, move: Vector, promotion: Option<Kind>)
    requires Legal(b, piece, move) && Origin(b, piece.position).Some?
    ensures var d := Displace(b, piece, move, LastAt(b.pieces, piece.position).value);
            && d.mover == Origin(b, piece.position).value.(position := move)
            && ApplyMove(b, piece, move, promotion) == Complete(b, piece, move, promotion, d)
  {
  }

  /** A completed call that was not halted by a missing promotion ran the final updates. */
  lemma Concluded(b: Board, piece: Piece, move: Vector, promotion: Option<Kind>)
    requires Legal(b, piece, move) && ApplyMove(b, piece, move, promotion).Ok? && !Halts(piece, move, promotion)
    ensures Origin(b, piece.position).Some?
    ensures var o := Origin(b, piece.position).value;
            var d := Displace(b, piece, move, LastAt(b.pieces, piece.position).value);
            var s := PromoteAndCastle(b, piece, move, promotion, d);
            && s.Placed?
            && ApplyMove(b, piece, move, promotion).value == Conclude(b, s.board, piece.position, s.mover)
            && s.mover == o.(position := move, kind := MoverKind(o, piece, move, promotion))
  {
    var j0 := LastAt(b.pieces, piece.position).value;
    var d := Displace(b, piece, move, j0);
    Stages(b, piece, move, promotion);
    PromoteAndCastleFrame(b, piece, move, promotion, d);
  }

  /** The grid and the list of a completed call: those of the clone, or those left by the castling stage. */
  lemma Outcome(b: Board, piece: Piece, move: Vector, promotion: Option<Kind>)
    requires Legal(b, piece, move) && ApplyMove(b, piece, move, promotion).Ok?
    ensures Origin(b, piece.position).Some?
    ensures var r := ApplyMove(b, piece, move, promotion).value;
            var d := Displace(b, piece, move, LastAt(b.pieces, piece.position).value);
            var s := PromoteAndCastle(b, piece, move, promotion, d);
            if Halts(piece, move, promotion) then r.squares == d.squares && r.pieces == d.pieces
            else s.Placed? && r.squares == s.board.squares && r.pieces == s.board.pieces
  {
    Stages(b, piece, move, promotion);
    if !Halts(piece, move, promotion) {
      var s := PromoteAndCastle(b, piece, move, promotion, Displace(b, piece, move, LastAt(b.pieces, piece.position).value));
      ConcludeFrame(b, s.board, piece.position, s.mover);
    }
  }

  // ---------------------------------------------------------------------
  // The stages one at a time
  // ---------------------------------------------------------------------

  /** Lines 313-344: counters, file, relocation and the capture's removal. */
  lemma RelocateFacts(b: Board, piece: Piece, move: Vector, j0: nat)
    requires WellFormed(b) && InBounds(piece.position) && InBounds(move) && j0 < |b.pieces|
    ensures var d := Relocate(b, piece, move, j0);
            var from := piece.position;
            var grid0 := GridOf(b.pieces);
            && d.mover == b.pieces[j0].(position := move)
            && d.captured == grid0[move.X][move.Y].Some?
            && d.fifty == (if d.captured || piece.kind == Pawn then 0 else b.fiftyMoveCounter + 1)
            && d.ep == (if b.pieces[j0].kind == Pawn && from.Y % 5 == 1 && (move.Y == 3 || move.Y == 4) then from.X else -1)
            && |d.pieces| == |b.pieces| - (if d.captured then 1 else 0)
            && d.squares[from.X][from.Y].None?
            && (move != from ==> d.squares[move.X][move.Y] == Some(d.mover))
            && (forall x, y :: 0 <= x < 8 && 0 <= y < 8 && Vector(x, y) != move && Vector(x, y) != from ==>
                  d.squares[x][y] == grid0[x][y])
  {
    GridOfCell(b.pieces, move.X, move.Y);
  }

  /** Lines 361-392: the move text after the promotion and the castling rename. */
  lemma PromoteAndCastleText(b: Board, piece: Piece, move: Vector, promotion: Option<Kind>, d: Displaced)
    requires ValidDisplaced(d) && InBounds(piece.position) && d.mover.position == move
    requires !Halts(piece, move, promotion)
    ensures var s := PromoteAndCastle(b, piece, move, promotion, d);
            s.Placed? ==>
              s.board.lastMoveString ==
                if s.mover.kind == King && move.X == 2 then "O-O-O"
                else if s.mover.kind == King && move.X == 6 then "O-O"
                else d.lastMove + (if Promoting(piece, move) then "=" + Sign(promotion.value) else "")
  {
    PromoteAndCastleFrame(b, piece, move, promotion, d);
  }

  /**
   * Lines 314, 369, 380 and 389: the move text. It is the upper-case sign of the
   * argument piece's type and both squares, then "=" and the promotion's sign
   * when one is given; a king landing on file 2 or 6 is written "O-O-O" or
   * "O-O" instead. A halted call keeps the text without the promotion.
   */
  lemma MoveText(b: Board, piece: Piece, move: Vector, promotion: Option<Kind>)
    requires Legal(b, piece, move) && ApplyMove(b, piece, move, promotion).Ok?
    ensures Origin(b, piece.position).Some?
    ensures var r := ApplyMove(b, piece, move, promotion).value;
            var o := Origin(b, piece.position).value;
            var kind := MoverKind(o, piece, move, promotion);
            var text := Sign(piece.kind) + BoardPosition(piece.position) + BoardPosition(move) + " ";
            && (Halts(piece, move, promotion) ==> r.lastMoveString == text)
            && (!Halts(piece, move, promotion) && kind == King && move.X == 2 ==> r.lastMoveString == "O-O-O")
            && (!Halts(piece, move, promotion) && kind == King && move.X == 6 ==> r.lastMoveString == "O-O")
            && (!Halts(piece, move, promotion) && !(kind == King && (move.X == 2 || move.X == 6)) ==>
                  r.lastMoveString == text + (if Promoting(piece, move) then "=" + Sign(promotion.value) else ""))
  {
    var j0 := LastAt(b.pieces, piece.position).value;
    Stages(b, piece, move, promotion);
    var d := Displace(b, piece, move, j0);
    TakeEnPassantFacts(Relocate(b, piece, move, j0), move, piece.colour);
    if !Halts(piece, move, promotion) {
      Concluded(b, piece, move, promotion);
      var s := PromoteAndCastle(b, piece, move, promotion, d);
      PromoteAndCastleText(b, piece, move, promotion, d);
      ConcludeFrame(b, s.board, piece.position, s.mover);
    }
  }

  /** Lines 313-344: a list piece standing on neither the origin nor the destination survives the relocation. */
  lemma RelocateKeeps(b: Board, piece: Piece, move: Vector, j0: nat, q: Piece)
    requires WellFormed(b) && InBounds(piece.position) && InBounds(move) && j0 < |b.pieces|
    requires b.pieces[j0].position == piece.position
    requires q in b.pieces && q.position != move && q.position != piece.position
    ensures q in Relocate(b, piece, move, j0).pieces
  {
    var ps := b.pieces;
    var castle := CastleCorner(b, ps[j0].colour, move);
    var k0 := if castle.Some? then LastAt(ps, castle.value.corner) else None;
    var captured := GridOf(ps)[move.X][move.Y].Some?;
    var (ps1, j1, k1) := if captured then Capture(ps, move, Some(j0), k0) else (ps, Some(j0), k0);
    assert q in ps1 && (j1.Some? ==> ps1[j1.value] == ps[j0]) by {
      if captured && FirstAt(ps, move).Some? {
        var c := FirstAt(ps, move).value;
        SwapRemoveMultiset(ps, c);
        assert q in multiset(ps) && q != ps[c];
        TrackSound(ps, c, j0);
      }
    }
    var i :| 0 <= i < |ps1| && ps1[i] == q;
    assert Overwrite(ps1, j1, ps[j0].(position := move))[i] == q;
  }

  /** Lines 334-359: a move that changes file never triggers the en-passant removal. */
  lemma FileChangeRemovesNothing(b: Board, piece: Piece, move: Vector, j0: nat)
    requires WellFormed(b) && InBounds(piece.position) && InBounds(move) && j0 < |b.pieces|
    requires move.X != piece.position.X
    ensures Displace(b, piece, move, j0).pieces == Relocate(b, piece, move, j0).pieces
  {
    RelocateFacts(b, piece, move, j0);
  }

  /** Lines 361-392: without a promotion, a mover that is not a king leaves the list and the grid as relocated. */
  lemma PlainPlacement(b: Board, piece: Piece, move: Vector, promotion: Option<Kind>, d: Displaced)
    requires ValidDisplaced(d) && InBounds(piece.position)
    requires !Promoting(piece, move) && d.mover.kind != King
    ensures var s := PromoteAndCastle(b, piece, move, promotion, d);
            s.Placed? && s.board.pieces == d.pieces && s.board.squares == d.squares
  {
  }

  /**
   * Lines 334-359: a pawn that captures diagonally beside an enemy pawn, the en
   * passant way, leaves that pawn in place. The en-passant file is set only by a
   * straight move, so the removal block finds nothing to remove: the piece
   * beside the origin stays in the list and on its cell.
   */
  lemma EnPassantCaptureKeepsPawn(b: Board, piece: Piece, move: Vector, promotion: Option<Kind>)
    requires Legal(b, piece, move) && ApplyMove(b, piece, move, promotion).Ok?
    requires Origin(b, piece.position).Some? && Origin(b, piece.position).value.kind == Pawn
    requires !Promoting(piece, move)
    requires move.X != piece.position.X && move.Y != piece.position.Y
    requires GridOf(b.pieces)[move.X][piece.position.Y].Some?
    ensures var q := GridOf(b.pieces)[move.X][piece.position.Y].value;
            var r := ApplyMove(b, piece, move, promotion).value;
            q in r.pieces && r.squares[move.X][piece.position.Y] == Some(q)
  {
    var from := piece.position;
    var j0 := LastAt(b.pieces, from).value;
    var q := GridOf(b.pieces)[move.X][from.Y].value;
    GridOfCell(b.pieces, move.X, from.Y);
    RelocateKeeps(b, piece, move, j0, q);
    FileChangeRemovesNothing(b, piece, move, j0);
    DisplaceCells(b, piece, move, j0);
    var d := Displace(b, piece, move, j0);
    assert q in d.pieces && d.squares[move.X][from.Y] == Some(q);
    Stages(b, piece, move, promotion);
    var s := PromoteAndCastle(b, piece, move, promotion, d);
    PlainPlacement(b, piece, move, promotion, d);
    ConcludeFrame(b, s.board, from, s.mover);
  }

  /** Lines 346-359: only the list changes, by at most one entry, and only for a pawn staying on the en-passant file. */
  lemma TakeEnPassantFacts(d: Displaced, move: Vector, colour: Colour)
    requires ValidDisplaced(d)
    ensures var r := TakeEnPassant(d, move, colour);
            && r.squares == d.squares && r.mover == d.mover && r.captured == d.captured
            && r.fifty == d.fifty && r.ep == d.ep && r.lastMove == d.lastMove
            && (|r.pieces| == |d.pieces| || (|r.pieces| == |d.pieces| - 1 && d.mover.kind == Pawn && d.ep == move.X))
  {
  }

  /** Lines 313-359 together: the mover, the counters and the list length. */
  lemma DisplaceFacts(b: Board, piece: Piece, move: Vector, j0: nat)
    requires WellFormed(b) && InBounds(piece.position) && InBounds(move) && j0 < |b.pieces|
    ensures var d := Displace(b, piece, move, j0);
            var from := piece.position;
            var grid0 := GridOf(b.pieces);
            var captured := if grid0[move.X][move.Y].Some? then 1 else 0;
            && d.mover == b.pieces[j0].(position := move)
            && d.fifty == (if grid0[move.X][move.Y].Some? || piece.kind == Pawn then 0 else b.fiftyMoveCounter + 1)
            && d.ep == (if b.pieces[j0].kind == Pawn && from.Y % 5 == 1 && (move.Y == 3 || move.Y == 4) then from.X else -1)
            && |b.pieces| - captured - 1 <= |d.pieces| <= |b.pieces| - captured
            && (move.X != from.X ==> |d.pieces| == |b.pieces| - captured)
  {
    RelocateFacts(b, piece, move, j0);
    TakeEnPassantFacts(Relocate(b, piece, move, j0), move, piece.colour);
  }

  /** Lines 313-359, the grid: the origin is cleared, the destination holds the mover, the rest is the rebuilt grid. */
  lemma DisplaceCells(b: Board, piece: Piece, move: Vector, j0: nat)
    requires WellFormed(b) && InBounds(piece.position) && InBounds(move) && j0 < |b.pieces|
    ensures var d := Displace(b, piece, move, j0);
            var from := piece.position;
            && d.squares[from.X][from.Y].None?
            && (move != from ==> d.squares[move.X][move.Y] == Some(d.mover))
            && (forall x, y :: 0 <= x < 8 && 0 <= y < 8 && Vector(x, y) != move && Vector(x, y) != from ==>
                  d.squares[x][y] == GridOf(b.pieces)[x][y])
  {
    RelocateFacts(b, piece, move, j0);
    TakeEnPassantFacts(Relocate(b, piece, move, j0), move, piece.colour);
  }

  /** Lines 361-371: the promotion changes the mover's type, its destination cell and its list entry. */
  lemma PromoteFacts(d: Displaced, from: Vector, kind: Kind)
    requires ValidDisplaced(d) && InBounds(from)
    ensures var r := Promote(d, from, kind);
            var move := d.mover.position;
            && r.mover == d.mover.(kind := kind)
            && |r.pieces| == |d.pieces|
            && (forall x, y :: 0 <= x < 8 && 0 <= y < 8 && Vector(x, y) != move ==> r.squares[x][y] == d.squares[x][y])
            && (move != from ==> r.squares[move.X][move.Y] == Some(r.mover))
            && (move == from ==> r.squares == d.squares)
  {
  }

  /** Lines 373-392: the relocation touches only the corner cell, and fails exactly on an empty corner. */
  lemma CastlingFacts(b: Board, d: Displaced, move: Vector)
    requires ValidDisplaced(d) && d.mover.position == move
    ensures var r := Castling(b, d, move);
            var castle := CastleFor(b, d.mover, move);
            && (r.None? <==> castle.Some? && d.squares[castle.value.corner.X][castle.value.corner.Y].None?)
            && (r.Some? ==>
                  && |r.value.pieces| == |d.pieces|
                  && (forall x, y ::
                        (0 <= x < 8 && 0 <= y < 8 && (castle.None? || Vector(x, y) != castle.value.corner))
                        ==> r.value.squares[x][y] == d.squares[x][y])
                  && (castle.Some? ==>
                        var c := castle.value;
                        && r.value.squares[c.corner.X][c.corner.Y].Some?
                        && r.value.squares[c.corner.X][c.corner.Y].value.position == Vector(c.file, c.corner.Y)))
  {
  }

  /** Lines 361-392: the mover's type, and the fields the promotion and the relocation leave alone. */
  lemma PromoteAndCastleFrame(b: Board, piece: Piece, move: Vector, promotion: Option<Kind>, d: Displaced)
    requires ValidDisplaced(d) && InBounds(piece.position) && d.mover.position == move
    requires !Halts(piece, move, promotion)
    ensures var s := PromoteAndCastle(b, piece, move, promotion, d);
            s.Placed? ==>
              && s.mover == d.mover.(kind := MoverKind(d.mover, piece, move, promotion))
              && s.board == Unfinished(b, d).(pieces := s.board.pieces, squares := s.board.squares,
                                              lastMoveString := s.board.lastMoveString)
              && |s.board.pieces| == |d.pieces|
  {
    var d1 := if Promoting(piece, move) then Promote(d, piece.position, promotion.value) else d;
    if Promoting(piece, move) {
      PromoteFacts(d, piece.position, promotion.value);
    }
    assert d1.mover == d.mover.(kind := MoverKind(d.mover, piece, move, promotion));
    CastlingFacts(b, d1, move);
  }

  /** Lines 361-392: the call stops with a nil dereference exactly when the castling corner is empty. */
  lemma PromoteAndCastleFailure(b: Board, piece: Piece, move: Vector, promotion: Option<Kind>, d: Displaced)
    requires ValidDisplaced(d) && InBounds(piece.position) && d.mover.position == move
    requires !Halts(piece, move, promotion)
    ensures var s := PromoteAndCastle(b, piece, move, promotion, d);
            var castle := CastleFor(b, d.mover.(kind := MoverKind(d.mover, piece, move, promotion)), move);
            && (s.Halted? <==> castle.Some? && d.squares[castle.value.corner.X][castle.value.corner.Y].None?)
            && (s.Halted? ==> s.outcome == Failed(NilDereference))
  {
    var d1 := if Promoting(piece, move) then Promote(d, piece.position, promotion.value) else d;
    if Promoting(piece, move) {
      PromoteFacts(d, piece.position, promotion.value);
    }
    assert d1.mover == d.mover.(kind := MoverKind(d.mover, piece, move, promotion));
    CastlingFacts(b, d1, move);
  }

  /** Lines 361-392: apart from the destination and the castling corner, the grid is the relocation's. */
  lemma PromoteAndCastleCells(b: Board, piece: Piece, move: Vector, promotion: Option<Kind>, d: Displaced)
    requires ValidDisplaced(d) && InBounds(piece.position) && d.mover.position == move
    requires move != piece.position ==> d.squares[move.X][move.Y] == Some(d.mover)
    requires !Halts(piece, move, promotion)
    ensures var s := PromoteAndCastle(b, piece, move, promotion, d);
            var mover := d.mover.(kind := MoverKind(d.mover, piece, move, promotion));
            var castle := CastleFor(b, mover, move);
            s.Placed? ==>
              && IsGrid(s.board.squares)
              && (forall x, y ::
                    (0 <= x < 8 && 0 <= y < 8 && Vector(x, y) != move && (castle.None? || Vector(x, y) != castle.value.corner))
                    ==> s.board.squares[x][y] == d.squares[x][y])
              && (move != piece.position ==> s.board.squares[move.X][move.Y] == Some(mover))
  {
    var from := piece.position;
    var d1 := if Promoting(piece, move) then Promote(d, from, promotion.value) else d;
    if Promoting(piece, move) {
      PromoteFacts(d, from, promotion.value);
    }
    var mover := d.mover.(kind := MoverKind(d.mover, piece, move, promotion));
    assert d1.mover == mover;
    CastlingFacts(b, d1, move);
    var castle := CastleFor(b, mover, move);
    var d2 := Castling(b, d1, move);
    var s := PromoteAndCastle(b, piece, move, promotion, d);
    if d2.Some? {
      assert s.board.squares == d2.value.squares;
      forall x, y | 0 <= x < 8 && 0 <= y < 8 && Vector(x, y) != move && (castle.None? || Vector(x, y) != castle.value.corner)
        ensures s.board.squares[x][y] == d.squares[x][y]
      {
        assert d2.value.squares[x][y] == d1.squares[x][y];
      }
      if move != from {
        assert d2.value.squares[move.X][move.Y] == d1.squares[move.X][move.Y];
      }
    }
  }

  /** Lines 373-392: the castling corner keeps a piece whose own position names the new file. */
  lemma PromoteAndCastleRook(b: Board, piece: Piece, move: Vector, promotion: Option<Kind>, d: Displaced)
    requires ValidDisplaced(d) && InBounds(piece.position) && d.mover.position == move
    requires !Halts(piece, move, promotion)
    ensures var s := PromoteAndCastle(b, piece, move, promotion, d);
            var castle := CastleFor(b, d.mover.(kind := MoverKind(d.mover, piece, move, promotion)), move);
            s.Placed? && castle.Some? ==>
              var c := castle.value;
              && s.board.squares[c.corner.X][c.corner.Y].Some?
              && s.board.squares[c.corner.X][c.corner.Y].value.position == Vector(c.file, c.corner.Y)
  {
    var d1 := if Promoting(piece, move) then Promote(d, piece.position, promotion.value) else d;
    if Promoting(piece, move) {
      PromoteFacts(d, piece.position, promotion.value);
    }
    assert d1.mover == d.mover.(kind := MoverKind(d.mover, piece, move, promotion));
    CastlingFacts(b, d1, move);
  }

  /** Lines 394-449: the final updates touch only maps, flags, rights, side and move number. */
  lemma ConcludeFrame(b: Board, placed: Board, from: Vector, mover: Piece)
    requires IsGrid(placed.squares) && AllInBounds(placed.pieces)
    ensures var r := Conclude(b, placed, from, mover);
            && r.pieces == placed.pieces && r.squares == placed.squares
            && r.enPassantRank == placed.enPassantRank && r.fiftyMoveCounter == placed.fiftyMoveCounter
            && r.lastMoveString == placed.lastMoveString && r.winner == placed.winner && r.children == placed.children
            && r.colourToMove == Opponent(b.colourToMove)
            && r.moveCounter == b.moveCounter + (if b.colourToMove == White then 1 else 0)
    ensures var r := Conclude(b, placed, from, mover);
            var move := mover.position;
            && r.canWhiteKingSideCastle == (placed.canWhiteKingSideCastle && !(mover.kind == King && mover.colour == White)
                 && !(mover.kind == Rook && mover.colour == White && from.X == 7 && move.Y == 0) && move != Vector(7, 0))
            && r.canWhiteQueenSideCastle == (placed.canWhiteQueenSideCastle && !(mover.kind == King && mover.colour == White)
                 && !(mover.kind == Rook && mover.colour == White && from.X == 0 && move.Y == 0) && move != Vector(0, 0))
            && r.canBlackKingSideCastle == (placed.canBlackKingSideCastle && !(mover.kind == King && mover.colour == Black)
                 && !(mover.kind == Rook && mover.colour == Black && from.X == 7 && move.Y == 7) && move != Vector(7, 7))
            && r.canBlackQueenSideCastle == (placed.canBlackQueenSideCastle && !(mover.kind == King && mover.colour == Black)
                 && !(mover.kind == Rook && mover.colour == Black && from.X == 0 && move.Y == 7) && move != Vector(0, 7))
  {
  }

  /** Lines 394-411: the maps and flags are those of the final board. */
  lemma ConcludeCoverage(b: Board, placed: Board, from: Vector, mover: Piece)
    requires IsGrid(placed.squares) && AllInBounds(placed.pieces)
    ensures var r := Conclude(b, placed, from, mover);
            && r.coveredSquaresWhite == CoveredMap(r, White) && r.coveredSquaresBlack == CoveredMap(r, Black)
            && r.isWhiteChecked == KingCovered(r, White) && r.isBlackChecked == KingCovered(r, Black)
  {
    var r := Conclude(b, placed, from, mover);
    CoveredMapFrame(placed, r, White);
    CoveredMapFrame(placed, r, Black);
  }

  /** Lines 313-392 for a piece that leaves its square: the origin is empty and the destination holds the mover. */
  lemma PlacedCells(b: Board, piece: Piece, move: Vector, promotion: Option<Kind>, j0: nat)
    requires WellFormed(b) && InBounds(piece.position) && InBounds(move) && j0 < |b.pieces|
    requires move != piece.position && !Halts(piece, move, promotion)
    ensures var d := Displace(b, piece, move, j0);
            var s := PromoteAndCastle(b, piece, move, promotion, d);
            s.Placed? ==>
              && s.board.squares[piece.position.X][piece.position.Y].None?
              && s.board.squares[move.X][move.Y] == Some(s.mover)
  {
    var from := piece.position;
    var d := Displace(b, piece, move, j0);
    DisplaceCells(b, piece, move, j0);
    PromoteAndCastleFailure(b, piece, move, promotion, d);
    PromoteAndCastleCells(b, piece, move, promotion, d);
    var s := PromoteAndCastle(b, piece, move, promotion, d);
    if s.Placed? {
      assert s.board.squares[from.X][from.Y] == d.squares[from.X][from.Y];
    }
  }

  /**
   * The panics: no piece on the origin, or a king ending on file 2 or 6 with the
   * matching right while its corner is empty (or is the square the king left).
   */
  lemma MoveFailure(b: Board, piece: Piece, move: Vector, promotion: Option<Kind>)
    requires Legal(b, piece, move)
    ensures var o := Origin(b, piece.position);
            ApplyMove(b, piece, move, promotion).Failed? <==>
              || o.None?
              || (&& !Halts(piece, move, promotion)
                  && MoverKind(o.value, piece, move, promotion) == King
                  && CastleCorner(b, o.value.colour, move).Some?
                  && var corner := CastleCorner(b, o.value.colour, move).value.corner;
                     (corner == piece.position || Origin(b, corner).None?))
  {
    var o := Origin(b, piece.position);
    if o.Some? {
      var j0 := LastAt(b.pieces, piece.position).value;
      var d := Displace(b, piece, move, j0);
      Stages(b, piece, move, promotion);
      if !Halts(piece, move, promotion) {
        var castle := if MoverKind(o.value, piece, move, promotion) == King then CastleCorner(b, o.value.colour, move) else None;
        var s := PromoteAndCastle(b, piece, move, promotion, d);
        assert (s.Halted? <==> castle.Some? && (castle.value.corner == piece.position || Origin(b, castle.value.corner).None?))
            && (s.Halted? ==> s.outcome.Failed?) by {
          DisplaceCells(b, piece, move, j0);
          PromoteAndCastleFailure(b, piece, move, promotion, d);
          if castle.Some? {
            var corner := castle.value.corner;
            GridOfCell(b.pieces, corner.X, corner.Y);
          }
        }
      }
    }
  }

  /**
   * The fifty-move count restarts on a capture (the rebuilt grid holds a piece
   * on the destination) or a pawn move and otherwise grows by one; the
   * en-passant file is the origin's file after a pawn leaves rank 1 or 6 for
   * rank 3 or 4, and -1 otherwise.
   */
  lemma MoveClocks(b: Board, piece: Piece, move: Vector, promotion: Option<Kind>)
    requires Legal(b, piece, move)
    requires ApplyMove(b, piece, move, promotion).Ok?
    ensures var r := ApplyMove(b, piece, move, promotion).value;
            var o := Origin(b, piece.position).value;
            var from := piece.position;
            && r.fiftyMoveCounter == (if GridOf(b.pieces)[move.X][move.Y].Some? || piece.kind == Pawn then 0
                                      else b.fiftyMoveCounter + 1)
            && r.enPassantRank == (if o.kind == Pawn && from.Y % 5 == 1 && (move.Y == 3 || move.Y == 4) then from.X else -1)
  {
    var j0 := LastAt(b.pieces, piece.position).value;
    var d := Displace(b, piece, move, j0);
    Stages(b, piece, move, promotion);
    assert ApplyMove(b, piece, move, promotion).value.fiftyMoveCounter == d.fifty
        && ApplyMove(b, piece, move, promotion).value.enPassantRank == d.ep by {
      if Halts(piece, move, promotion) {
        assert ApplyMove(b, piece, move, promotion).value == Unfinished(b, d);
      } else {
        Concluded(b, piece, move, promotion);
        PromoteAndCastleFrame(b, piece, move, promotion, d);
        var s := PromoteAndCastle(b, piece, move, promotion, d);
        ConcludeFrame(b, s.board, piece.position, s.mover);
      }
    }
    DisplaceFacts(b, piece, move, j0);
  }

  /**
   * The side to move passes and the move number grows after White's move,
   * except when a due promotion was not given; the result and the children are
   * copied from the receiver.
   */
  lemma MoveTurn(b: Board, piece: Piece, move: Vector, promotion: Option<Kind>)
    requires Legal(b, piece, move)
    requires ApplyMove(b, piece, move, promotion).Ok?
    ensures var r := ApplyMove(b, piece, move, promotion).value;
            && r.winner == b.winner && r.children == b.children
            && (if Halts(piece, move, promotion)
                then r.colourToMove == b.colourToMove && r.moveCounter == b.moveCounter
                else r.colourToMove == Opponent(b.colourToMove)
                     && r.moveCounter == b.moveCounter + (if b.colourToMove == White then 1 else 0))
  {
    if Halts(piece, move, promotion) {
      var j0 := LastAt(b.pieces, piece.position).value;
      Stages(b, piece, move, promotion);
      assert ApplyMove(b, piece, move, promotion).value == Unfinished(b, Displace(b, piece, move, j0));
    } else {
      Concluded(b, piece, move, promotion);
      var s := PromoteAndCastle(b, piece, move, promotion, Displace(b, piece, move, LastAt(b.pieces, piece.position).value));
      ConcludeFrame(b, s.board, piece.position, s.mover);
    }
  }

  /**
   * Lines 402-442: each castling right after the move, exactly. A king move
   * revokes both rights of its colour; a rook that started on file 7 (0) and
   * stands on its home rank after the move revokes the king-side (queen-side)
   * right, so a rook that leaves the home rank along its file keeps it; a move
   * onto a corner revokes that corner's right; every other right is kept. A
   * due promotion without a type returns before these updates, with the four
   * rights as they were.
   */
  lemma MoveRights(b: Board, piece: Piece, move: Vector, promotion: Option<Kind>)
    requires Legal(b, piece, move)
    requires ApplyMove(b, piece, move, promotion).Ok?
    ensures var r := ApplyMove(b, piece, move, promotion).value;
            Halts(piece, move, promotion) ==>
              && r.canWhiteKingSideCastle == b.canWhiteKingSideCastle
              && r.canWhiteQueenSideCastle == b.canWhiteQueenSideCastle
              && r.canBlackKingSideCastle == b.canBlackKingSideCastle
              && r.canBlackQueenSideCastle == b.canBlackQueenSideCastle
    ensures var r := ApplyMove(b, piece, move, promotion).value;
            var o := Origin(b, piece.position).value;
            var kind := MoverKind(o, piece, move, promotion);
            var from := piece.position;
            !Halts(piece, move, promotion) ==>
              && r.canWhiteKingSideCastle == (b.canWhiteKingSideCastle && !(kind == King && o.colour == White)
                   && !(kind == Rook && o.colour == White && from.X == 7 && move.Y == 0) && move != Vector(7, 0))
              && r.canWhiteQueenSideCastle == (b.canWhiteQueenSideCastle && !(kind == King && o.colour == White)
                   && !(kind == Rook && o.colour == White && from.X == 0 && move.Y == 0) && move != Vector(0, 0))
              && r.canBlackKingSideCastle == (b.canBlackKingSideCastle && !(kind == King && o.colour == Black)
                   && !(kind == Rook && o.colour == Black && from.X == 7 && move.Y == 7) && move != Vector(7, 7))
              && r.canBlackQueenSideCastle == (b.canBlackQueenSideCastle && !(kind == King && o.colour == Black)
                   && !(kind == Rook && o.colour == Black && from.X == 0 && move.Y == 7) && move != Vector(0, 7))
  {
    if Halts(piece, move, promotion) {
      var j0 := LastAt(b.pieces, piece.position).value;
      Stages(b, piece, move, promotion);
      assert ApplyMove(b, piece, move, promotion).value == Unfinished(b, Displace(b, piece, move, j0));
    } else {
      var d := Displace(b, piece, move, LastAt(b.pieces, piece.position).value);
      Concluded(b, piece, move, promotion);
      PromoteAndCastleFrame(b, piece, move, promotion, d);
      var s := PromoteAndCastle(b, piece, move, promotion, d);
      ConcludeFrame(b, s.board, piece.position, s.mover);
    }
  }

  /** Rights are only ever revoked: no move restores a right the board had lost. */
  lemma RightsOnlyRevoked(b: Board, piece: Piece, move: Vector, promotion: Option<Kind>)
    requires Legal(b, piece, move)
    requires ApplyMove(b, piece, move, promotion).Ok?
    ensures var r := ApplyMove(b, piece, move, promotion).value;
            && (r.canWhiteKingSideCastle ==> b.canWhiteKingSideCastle)
            && (r.canWhiteQueenSideCastle ==> b.canWhiteQueenSideCastle)
            && (r.canBlackKingSideCastle ==> b.canBlackKingSideCastle)
            && (r.canBlackQueenSideCastle ==> b.canBlackQueenSideCastle)
  {
    MoveRights(b, piece, move, promotion);
  }

  /** A rook that leaves its home rank along its file keeps its side's right: only the landing rank is tested. */
  lemma RookLeavingRankKeepsRight(b: Board, piece: Piece, move: Vector, promotion: Option<Kind>)
    requires Legal(b, piece, move)
    requires ApplyMove(b, piece, move, promotion).Ok?
    requires Origin(b, piece.position) == Some(Piece(Rook, White, Vector(7, 0)))
    requires piece.position == Vector(7, 0) && move == Vector(7, 3) && b.canWhiteKingSideCastle
    ensures ApplyMove(b, piece, move, promotion).value.canWhiteKingSideCastle
  {
    MoveRights(b, piece, move, promotion);
  }

  /**
   * The origin cell is emptied and the destination cell holds the moving piece,
   * with its new position and (after a promotion) its new type.
   */
  lemma MoverLands(b: Board, piece: Piece, move: Vector, promotion: Option<Kind>)
    requires Legal(b, piece, move) && move != piece.position
    requires ApplyMove(b, piece, move, promotion).Ok?
    ensures var r := ApplyMove(b, piece, move, promotion).value;
            var o := Origin(b, piece.position).value;
            && r.squares[piece.position.X][piece.position.Y].None?
            && r.squares[move.X][move.Y] == Some(o.(position := move, kind := MoverKind(o, piece, move, promotion)))
  {
    var j0 := LastAt(b.pieces, piece.position).value;
    Outcome(b, piece, move, promotion);
    if Halts(piece, move, promotion) {
      DisplaceCells(b, piece, move, j0);
      Stages(b, piece, move, promotion);
    } else {
      Concluded(b, piece, move, promotion);
      PlacedCells(b, piece, move, promotion, j0);
    }
  }

  /**
   * The relocated rook keeps its grid cell on the corner while its own position
   * names the new file: only the piece changes, not the grid.
   */
  lemma RookRelocationKeepsCell(b: Board, piece: Piece, move: Vector, promotion: Option<Kind>)
    requires Legal(b, piece, move)
    requires ApplyMove(b, piece, move, promotion).Ok? && !Halts(piece, move, promotion)
    requires MoverKind(Origin(b, piece.position).value, piece, move, promotion) == King
    requires CastleCorner(b, Origin(b, piece.position).value.colour, move).Some?
    ensures var r := ApplyMove(b, piece, move, promotion).value;
            var c := CastleCorner(b, Origin(b, piece.position).value.colour, move).value;
            && r.squares[c.corner.X][c.corner.Y].Some?
            && r.squares[c.corner.X][c.corner.Y].value.position == Vector(c.file, c.corner.Y)
            && r.squares[c.corner.X][c.corner.Y].value.position != c.corner
  {
    var o := Origin(b, piece.position).value;
    var c := CastleCorner(b, o.colour, move).value;
    var j0 := LastAt(b.pieces, piece.position).value;
    var d := Displace(b, piece, move, j0);
    Stages(b, piece, move, promotion);
    var s := PromoteAndCastle(b, piece, move, promotion, d);
    Concluded(b, piece, move, promotion);
    assert ApplyMove(b, piece, move, promotion).value.squares == s.board.squares by {
      ConcludeFrame(b, s.board, piece.position, s.mover);
    }
    assert s.board.squares[c.corner.X][c.corner.Y].Some?
        && s.board.squares[c.corner.X][c.corner.Y].value.position == Vector(c.file, c.corner.Y) by {
      PromoteAndCastleRook(b, piece, move, promotion, d);
    }
  }

  /**
   * The list loses the captured piece (one entry when the rebuilt grid holds a
   * piece on the destination) and at most one more, the en-passant removal,
   * which can only happen when the piece stays on its file.
   */
  lemma MoveListLength(b: Board, piece: Piece, move: Vector, promotion: Option<Kind>)
    requires Legal(b, piece, move)
    requires ApplyMove(b, piece, move, promotion).Ok?
    ensures var r := ApplyMove(b, piece, move, promotion).value;
            var captured := if GridOf(b.pieces)[move.X][move.Y].Some? then 1 else 0;
            && |b.pieces| - captured - 1 <= |r.pieces| <= |b.pieces| - captured
            && (move.X != piece.position.X ==> |r.pieces| == |b.pieces| - captured)
  {
    var j0 := LastAt(b.pieces, piece.position).value;
    var d := Displace(b, piece, move, j0);
    Outcome(b, piece, move, promotion);
    if !Halts(piece, move, promotion) {
      PromoteAndCastleFrame(b, piece, move, promotion, d);
    }
    DisplaceFacts(b, piece, move, j0);
  }

  /**
   * After a completed call the covered maps and check flags describe the new
   * board: each map holds what that colour's pieces cover, and each flag says
   * whether that colour's first king stands on a square the other colour covers.
   */
  lemma CoverageFresh(b: Board, piece: Piece, move: Vector, promotion: Option<Kind>)
    requires Legal(b, piece, move)
    requires ApplyMove(b, piece, move, promotion).Ok? && !Halts(piece, move, promotion)
    ensures var r := ApplyMove(b, piece, move, promotion).value;
            && r.coveredSquaresWhite == CoveredMap(r, White)
            && r.coveredSquaresBlack == CoveredMap(r, Black)
            && r.isWhiteChecked == KingCovered(r, White)
            && r.isBlackChecked == KingCovered(r, Black)
  {
    Concluded(b, piece, move, promotion);
    var s := PromoteAndCastle(b, piece, move, promotion, Displace(b, piece, move, LastAt(b.pieces, piece.position).value));
    ConcludeCoverage(b, s.board, piece.position, s.mover);
  }
}
