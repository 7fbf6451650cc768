/**
 * `Board.getPossibleMoves` and `verifyBoardState` (board.go, lines 454-491):
 * every successor the side to move can reach with one pseudo-legal move of one
 * of its pieces, keeping those that pass the check test.
 */
module Boards {
  import opened Wrappers
  import opened Utils
  import opened ChessTypes
  import opened Pieces
  import opened PieceRules
  import opened Coverage
  import opened Moves
  import opened MoveRules

  /**
   * `verifyBoardState`, read on a successor: with White to move, Black (who
   * just moved) is not in check, and with Black to move, White is not.
   */
  predicate VerifyBoardState(b: Board) {
    !(b.colourToMove == White && b.isBlackChecked) && !(b.colourToMove == Black && b.isWhiteChecked)
  }

  /**
   * The promotion arguments tried for one destination (lines 461-478): the
   * four types in the order knight, bishop, rook, queen for a pawn reaching
   * rank 0 or 7 (of either colour), and no type otherwise.
   */
  function PromotionChoices(p: Piece, move: Vector): (cs: seq<Option<Kind>>)
    ensures |cs| == 1 || |cs| == 4
    ensures Promoting(p, move) ==> forall i :: 0 <= i < |cs| ==> cs[i].Some?
  {
    if p.kind == Pawn && (move.Y == 0 || move.Y == 7) then [Some(Knight), Some(Bishop), Some(Rook), Some(Queen)]
    else [None]
  }

  /** The batch one `MakeMove` result contributes: the successor if it passes the test; a panic stops everything. */
  function Kept(next: Result<Board>): Result<seq<Board>> {
    if next.Failed? then Failed(next.panic)
    else if VerifyBoardState(next.value) then Ok([next.value])
    else Ok([])
  }

  /** Two batches in order; the first panic stops the rest. */
  function Join(first: Result<seq<Board>>, rest: Result<seq<Board>>): Result<seq<Board>> {
    if first.Failed? then first
    else if rest.Failed? then rest
    else Ok(first.value + rest.value)
  }

  /** The batches of a run of `MakeMove` results, in order. */
  function Gather(outs: seq<Result<Board>>): Result<seq<Board>> {
    if outs == [] then Ok([])
    else Join(Gather(outs[..|outs| - 1]), Kept(outs[|outs| - 1]))
  }

  lemma GatherStep(outs: seq<Result<Board>>, k: nat)
    requires k < |outs|
    ensures Gather(outs[..k + 1]) == Join(Gather(outs[..k]), Kept(outs[k]))
  {
    assert outs[..k + 1][..k] == outs[..k];
  }

  /** The `MakeMove` results for one destination, one per promotion argument in `cs`. */
  function Outcomes(b: Board, p: Piece, move: Vector, cs: seq<Option<Kind>>): (outs: seq<Result<Board>>)
    requires Legal(b, p, move)
    ensures |outs| == |cs|
  {
    seq(|cs|, i requires 0 <= i < |cs| => ApplyMove(b, p, move, cs[i]))
  }

  lemma OutcomesFront(b: Board, p: Piece, move: Vector, cs: seq<Option<Kind>>)
    requires Legal(b, p, move) && cs != []
    ensures Outcomes(b, p, move, cs)[..|cs| - 1] == Outcomes(b, p, move, cs[..|cs| - 1])
    ensures Outcomes(b, p, move, cs)[|cs| - 1] == ApplyMove(b, p, move, cs[|cs| - 1])
  {
    var outs := Outcomes(b, p, move, cs);
    var front := Outcomes(b, p, move, cs[..|cs| - 1]);
    forall i | 0 <= i < |cs| - 1 ensures outs[i] == front[i] {
    }
  }

  /** The successors for one destination. */
  function TryChoices(b: Board, p: Piece, move: Vector, cs: seq<Option<Kind>>): Result<seq<Board>>
    requires Legal(b, p, move)
  {
    Gather(Outcomes(b, p, move, cs))
  }

  /** The successors for the destinations `moves` of one piece, in order. */
  function TryMoves(b: Board, p: Piece, moves: seq<Vector>): Result<seq<Board>>
    requires WellFormed(b) && InBounds(p.position)
    requires forall j :: 0 <= j < |moves| ==> InBounds(moves[j])
  {
    if moves == [] then Ok([])
    else
      var last := moves[|moves| - 1];
      Join(TryMoves(b, p, moves[..|moves| - 1]), TryChoices(b, p, last, PromotionChoices(p, last)))
  }

  lemma PossibleMovesInBounds(b: Board, p: Piece)
    requires IsGrid(b.squares) && InBounds(p.position)
    ensures forall j :: 0 <= j < |PossibleMoves(b, p)| ==> InBounds(PossibleMoves(b, p)[j])
  {
    forall j | 0 <= j < |PossibleMoves(b, p)| {
      PossibleMovesOnBoard(b, p, PossibleMoves(b, p)[j]);
    }
  }

  /** The successors of one piece: all its pseudo-legal destinations. */
  function PieceSuccessors(b: Board, p: Piece): Result<seq<Board>>
    requires WellFormed(b) && InBounds(p.position)
  {
    PossibleMovesInBounds(b, p);
    TryMoves(b, p, PossibleMoves(b, p))
  }

  /** The successors contributed by the pieces `ps` of the side to move, in list order. */
  function Successors(b: Board, ps: seq<Piece>): Result<seq<Board>>
    requires WellFormed(b) && AllInBounds(ps)
  {
    if ps == [] then Ok([])
    else
      var p := ps[|ps| - 1];
      if p.colour != b.colourToMove then Successors(b, ps[..|ps| - 1])
      else Join(Successors(b, ps[..|ps| - 1]), PieceSuccessors(b, p))
  }

  /** `getPossibleMoves`: the successors of the whole list. */
  function PossibleBoards(b: Board): Result<seq<Board>>
    requires WellFormed(b)
  {
    Successors(b, b.pieces)
  }

  // ---------------------------------------------------------------------
  // What the successors are
  // ---------------------------------------------------------------------

  /** One of the promotion arguments `cs` tried at `move` gives r, and r passes the test. */
  ghost predicate Produces(b: Board, p: Piece, move: Vector, cs: seq<Option<Kind>>, r: Board)
    requires Legal(b, p, move)
  {
    cs != [] &&
    (Produces(b, p, move, cs[..|cs| - 1], r) || (ApplyMove(b, p, move, cs[|cs| - 1]) == Ok(r) && VerifyBoardState(r)))
  }

  /** One of the destinations `moves`, with its promotion arguments, produces r. */
  ghost predicate ReachedBy(b: Board, p: Piece, moves: seq<Vector>, r: Board)
    requires WellFormed(b) && InBounds(p.position)
    requires forall j :: 0 <= j < |moves| ==> InBounds(moves[j])
  {
    moves != [] &&
    (ReachedBy(b, p, moves[..|moves| - 1], r) ||
     Produces(b, p, moves[|moves| - 1], PromotionChoices(p, moves[|moves| - 1]), r))
  }

  /** Piece p reaches r: one of its pseudo-legal destinations produces r. */
  ghost predicate Reaches(b: Board, p: Piece, r: Board)
    requires WellFormed(b) && InBounds(p.position)
  {
    PossibleMovesInBounds(b, p);
    ReachedBy(b, p, PossibleMoves(b, p), r)
  }

  /** One of the pieces `ps` belongs to the side to move and reaches r. */
  ghost predicate MovedTo(b: Board, ps: seq<Piece>, r: Board)
    requires WellFormed(b) && AllInBounds(ps)
  {
    ps != [] &&
    (MovedTo(b, ps[..|ps| - 1], r) || (ps[|ps| - 1].colour == b.colourToMove && Reaches(b, ps[|ps| - 1], r)))
  }

  lemma {:induction false} ProducesWitness(b: Board, p: Piece, move: Vector, cs: seq<Option<Kind>>, r: Board)
    returns (c: Option<Kind>)
    requires Legal(b, p, move) && Produces(b, p, move, cs, r)
    ensures c in cs && ApplyMove(b, p, move, c) == Ok(r) && VerifyBoardState(r)
  {
    var front := cs[..|cs| - 1];
    if Produces(b, p, move, front, r) {
      c := ProducesWitness(b, p, move, front, r);
      assert c in cs by { var i :| 0 <= i < |front| && front[i] == c; assert cs[i] == c; }
    } else {
      c := cs[|cs| - 1];
    }
  }

  lemma {:induction false} ProducesIntro(b: Board, p: Piece, move: Vector, cs: seq<Option<Kind>>, i: nat, r: Board)
    requires Legal(b, p, move) && i < |cs| && ApplyMove(b, p, move, cs[i]) == Ok(r) && VerifyBoardState(r)
    ensures Produces(b, p, move, cs, r)
  {
    if i < |cs| - 1 {
      var front := cs[..|cs| - 1];
      assert front[i] == cs[i];
      ProducesIntro(b, p, move, front, i, r);
    }
  }

  lemma {:induction false} ReachedByWitness(b: Board, p: Piece, moves: seq<Vector>, r: Board) returns (j: nat)
    requires WellFormed(b) && InBounds(p.position)
    requires forall j :: 0 <= j < |moves| ==> InBounds(moves[j])
    requires ReachedBy(b, p, moves, r)
    ensures j < |moves| && Produces(b, p, moves[j], PromotionChoices(p, moves[j]), r)
  {
    var front := moves[..|moves| - 1];
    if ReachedBy(b, p, front, r) {
      j := ReachedByWitness(b, p, front, r);
      assert front[j] == moves[j];
    } else {
      j := |moves| - 1;
    }
  }

  lemma {:induction false} ReachedByIntro(b: Board, p: Piece, moves: seq<Vector>, j: nat, r: Board)
    requires WellFormed(b) && InBounds(p.position)
    requires forall j :: 0 <= j < |moves| ==> InBounds(moves[j])
    requires j < |moves| && Produces(b, p, moves[j], PromotionChoices(p, moves[j]), r)
    ensures ReachedBy(b, p, moves, r)
  {
    if j < |moves| - 1 {
      var front := moves[..|moves| - 1];
      assert front[j] == moves[j];
      ReachedByIntro(b, p, front, j, r);
    }
  }

  lemma {:induction false} MovedToWitness(b: Board, ps: seq<Piece>, r: Board) returns (k: nat)
    requires WellFormed(b) && AllInBounds(ps) && MovedTo(b, ps, r)
    ensures k < |ps| && ps[k].colour == b.colourToMove && Reaches(b, ps[k], r)
  {
    var front := ps[..|ps| - 1];
    if MovedTo(b, front, r) {
      k := MovedToWitness(b, front, r);
      assert front[k] == ps[k];
    } else {
      k := |ps| - 1;
    }
  }

  lemma {:induction false} MovedToIntro(b: Board, ps: seq<Piece>, k: nat, r: Board)
    requires WellFormed(b) && AllInBounds(ps)
    requires k < |ps| && ps[k].colour == b.colourToMove && Reaches(b, ps[k], r)
    ensures MovedTo(b, ps, r)
  {
    if k < |ps| - 1 {
      var front := ps[..|ps| - 1];
      assert front[k] == ps[k];
      MovedToIntro(b, front, k, r);
    }
  }

  lemma {:induction false} ChoicesMembership(b: Board, p: Piece, move: Vector, cs: seq<Option<Kind>>, r: Board)
    requires Legal(b, p, move) && TryChoices(b, p, move, cs).Ok?
    ensures r in TryChoices(b, p, move, cs).value <==> Produces(b, p, move, cs, r)
  {
    if cs != [] {
      var front := cs[..|cs| - 1];
      OutcomesFront(b, p, move, cs);
      ChoicesMembership(b, p, move, front, r);
    }
  }

  lemma {:induction false} TryMovesMembership(b: Board, p: Piece, moves: seq<Vector>, r: Board)
    requires WellFormed(b) && InBounds(p.position)
    requires forall j :: 0 <= j < |moves| ==> InBounds(moves[j])
    requires TryMoves(b, p, moves).Ok?
    ensures r in TryMoves(b, p, moves).value <==> ReachedBy(b, p, moves, r)
  {
    if moves != [] {
      var last := moves[|moves| - 1];
      TryMovesMembership(b, p, moves[..|moves| - 1], r);
      ChoicesMembership(b, p, last, PromotionChoices(p, last), r);
    }
  }

  /**
   * Soundness and completeness: a board is among the successors exactly when
   * some piece of the side to move reaches it.
   */
  lemma {:induction false} SuccessorsMembership(b: Board, ps: seq<Piece>, r: Board)
    requires WellFormed(b) && AllInBounds(ps) && Successors(b, ps).Ok?
    ensures r in Successors(b, ps).value <==> MovedTo(b, ps, r)
  {
    if ps != [] {
      var p := ps[|ps| - 1];
      SuccessorsMembership(b, ps[..|ps| - 1], r);
      if p.colour == b.colourToMove {
        PossibleMovesInBounds(b, p);
        TryMovesMembership(b, p, PossibleMoves(b, p), r);
      }
    }
  }

  /**
   * A successor a piece reaches: the side to move has passed (no promotion is
   * ever left out, so MakeMove always finishes), the side that moved is not in
   * check on the recomputed maps, and the result and the children are copied
   * from the parent.
   */
  lemma ProducedIsSafe(b: Board, p: Piece, move: Vector, c: Option<Kind>, r: Board)
    requires Legal(b, p, move) && c in PromotionChoices(p, move)
    requires ApplyMove(b, p, move, c) == Ok(r) && VerifyBoardState(r)
    ensures r.colourToMove == Opponent(b.colourToMove)
    ensures WellFormed(r) && !KingCovered(r, b.colourToMove)
    ensures r.winner == b.winner && r.children == b.children
  {
    assert !Halts(p, move, c);
    MoveTurn(b, p, move, c);
    CoverageFresh(b, p, move, c);
  }

  /** Every board `getPossibleMoves` returns passes the test and hands the move over with the mover's king uncovered. */
  lemma SuccessorsAreSafe(b: Board, r: Board)
    requires WellFormed(b) && PossibleBoards(b).Ok? && r in PossibleBoards(b).value
    ensures VerifyBoardState(r) && r.colourToMove == Opponent(b.colourToMove)
    ensures WellFormed(r) && !KingCovered(r, b.colourToMove)
    ensures r.winner == b.winner && r.children == b.children
  {
    var k, j, c := SuccessorSource(b, r);
    ProducedIsSafe(b, b.pieces[k], PossibleMoves(b, b.pieces[k])[j], c, r);
  }

  /** Where a successor comes from: a piece of the side to move, one of its destinations and a promotion argument. */
  lemma SuccessorSource(b: Board, r: Board) returns (k: nat, j: nat, c: Option<Kind>)
    requires WellFormed(b) && PossibleBoards(b).Ok? && r in PossibleBoards(b).value
    ensures k < |b.pieces| && b.pieces[k].colour == b.colourToMove
    ensures j < |PossibleMoves(b, b.pieces[k])| && c in PromotionChoices(b.pieces[k], PossibleMoves(b, b.pieces[k])[j])
    ensures InBounds(PossibleMoves(b, b.pieces[k])[j])
    ensures ApplyMove(b, b.pieces[k], PossibleMoves(b, b.pieces[k])[j], c) == Ok(r) && VerifyBoardState(r)
  {
    SuccessorsMembership(b, b.pieces, r);
    k := MovedToWitness(b, b.pieces, r);
    var p := b.pieces[k];
    PossibleMovesInBounds(b, p);
    j := ReachedByWitness(b, p, PossibleMoves(b, p), r);
    c := ProducesWitness(b, p, PossibleMoves(b, p)[j], PromotionChoices(p, PossibleMoves(b, p)[j]), r);
  }

  /** Completeness: every move of a piece of the side to move whose result passes the test is listed. */
  lemma SuccessorsComplete(b: Board, k: nat, j: nat, c: Option<Kind>, r: Board)
    requires WellFormed(b) && PossibleBoards(b).Ok?
    requires k < |b.pieces| && b.pieces[k].colour == b.colourToMove
    requires j < |PossibleMoves(b, b.pieces[k])| && c in PromotionChoices(b.pieces[k], PossibleMoves(b, b.pieces[k])[j])
    requires InBounds(PossibleMoves(b, b.pieces[k])[j])
    requires ApplyMove(b, b.pieces[k], PossibleMoves(b, b.pieces[k])[j], c) == Ok(r) && VerifyBoardState(r)
    ensures r in PossibleBoards(b).value
  {
    var p := b.pieces[k];
    var moves := PossibleMoves(b, p);
    PossibleMovesInBounds(b, p);
    var cs := PromotionChoices(p, moves[j]);
    var i :| 0 <= i < |cs| && cs[i] == c;
    ProducesIntro(b, p, moves[j], cs, i, r);
    ReachedByIntro(b, p, moves, j, r);
    MovedToIntro(b, b.pieces, k, r);
    SuccessorsMembership(b, b.pieces, r);
  }

  // ---------------------------------------------------------------------
  // The loops
  // ---------------------------------------------------------------------

  /** Failure is final: once a prefix of the destinations panics, so does the whole. */
  lemma {:induction false} TryMovesFailedPrefix(b: Board, p: Piece, moves: seq<Vector>, k: nat)
    requires WellFormed(b) && InBounds(p.position)
    requires forall j :: 0 <= j < |moves| ==> InBounds(moves[j])
    requires k <= |moves| && TryMoves(b, p, moves[..k]).Failed?
    ensures TryMoves(b, p, moves) == TryMoves(b, p, moves[..k])
    decreases |moves| - k
  {
    if k < |moves| {
      var front := moves[..|moves| - 1];
      assert front[..k] == moves[..k];
      TryMovesFailedPrefix(b, p, front, k);
    } else {
      assert moves[..k] == moves;
    }
  }

  /** Failure is final: once a prefix of the list panics, so does the whole. */
  lemma {:induction false} SuccessorsFailedPrefix(b: Board, ps: seq<Piece>, k: nat)
    requires WellFormed(b) && AllInBounds(ps)
    requires k <= |ps| && Successors(b, ps[..k]).Failed?
    ensures Successors(b, ps) == Successors(b, ps[..k])
    decreases |ps| - k
  {
    if k < |ps| {
      var front := ps[..|ps| - 1];
      assert front[..k] == ps[..k];
      SuccessorsFailedPrefix(b, front, k);
    } else {
      assert ps[..k] == ps;
    }
  }

  /** A list piece other than a king stands on the corner v. */
  predicate HeldCorner(b: Board, v: Vector) {
    Origin(b, v).Some? && Origin(b, v).value.kind != King
  }

  /** Every corner a castling relocation can look up is held by a piece other than a king. */
  predicate CornersHeld(b: Board) {
    HeldCorner(b, Vector(0, 0)) && HeldCorner(b, Vector(7, 0)) && HeldCorner(b, Vector(0, 7)) && HeldCorner(b, Vector(7, 7))
  }

  /**
   * Lines 312-392: with the origin occupied and every corner held, `MakeMove`
   * cannot panic, for any promotion argument other than a king.
   */
  lemma MoveNeverPanics(b: Board, piece: Piece, move: Vector, promotion: Option<Kind>)
    requires Legal(b, piece, move) && Origin(b, piece.position).Some? && CornersHeld(b)
    requires promotion != Some(King)
    ensures ApplyMove(b, piece, move, promotion).Ok?
  {
    MoveFailure(b, piece, move, promotion);
    var o := Origin(b, piece.position).value;
    var castle := CastleCorner(b, o.colour, move);
    if castle.Some? {
      var corner := castle.value.corner;
      assert HeldCorner(b, corner);
      if corner == piece.position {
        assert MoverKind(o, piece, move, promotion) != King;
      }
    }
  }

  /** A run of `MakeMove` results without a panic gathers without a panic. */
  lemma {:induction false} GatherOk(outs: seq<Result<Board>>)
    requires forall i :: 0 <= i < |outs| ==> outs[i].Ok?
    ensures Gather(outs).Ok?
  {
    if outs != [] {
      GatherOk(outs[..|outs| - 1]);
    }
  }

  /** Lines 461-478 for one destination: no promotion argument panics. */
  lemma TryChoicesOk(b: Board, p: Piece, move: Vector)
    requires Legal(b, p, move) && Origin(b, p.position).Some? && CornersHeld(b)
    ensures TryChoices(b, p, move, PromotionChoices(p, move)).Ok?
  {
    var cs := PromotionChoices(p, move);
    var outs := Outcomes(b, p, move, cs);
    forall i | 0 <= i < |outs|
      ensures outs[i].Ok?
    {
      assert cs[i] != Some(King);
      MoveNeverPanics(b, p, move, cs[i]);
    }
    GatherOk(outs);
  }

  /** Lines 458-481 for one piece of the list: no destination panics. */
  lemma {:induction false} TryMovesOk(b: Board, p: Piece, moves: seq<Vector>)
    requires WellFormed(b) && InBounds(p.position) && Origin(b, p.position).Some? && CornersHeld(b)
    requires forall j :: 0 <= j < |moves| ==> InBounds(moves[j])
    ensures TryMoves(b, p, moves).Ok?
  {
    if moves != [] {
      TryMovesOk(b, p, moves[..|moves| - 1]);
      TryChoicesOk(b, p, moves[|moves| - 1]);
    }
  }

  /** Lines 454-491 over the pieces `ps` of the list. */
  lemma {:induction false} SuccessorsOk(b: Board, ps: seq<Piece>)
    requires WellFormed(b) && AllInBounds(ps) && CornersHeld(b)
    requires forall i :: 0 <= i < |ps| ==> Origin(b, ps[i].position).Some?
    ensures Successors(b, ps).Ok?
  {
    if ps != [] {
      var p := ps[|ps| - 1];
      SuccessorsOk(b, ps[..|ps| - 1]);
      PossibleMovesInBounds(b, p);
      TryMovesOk(b, p, PossibleMoves(b, p));
    }
  }

  /**
   * `getPossibleMoves` never panics on a board whose four corners hold pieces
   * other than kings: every origin it tries holds a list piece, and every
   * castling relocation finds its rook's corner occupied.
   */
  lemma PossibleBoardsOk(b: Board)
    requires WellFormed(b) && CornersHeld(b)
    ensures PossibleBoards(b).Ok?
  {
    forall i | 0 <= i < |b.pieces|
      ensures Origin(b, b.pieces[i].position).Some?
    {
    }
    SuccessorsOk(b, b.pieces);
  }

  /** One more destination whose batch is `more`. */
  lemma TryMovesStep(b: Board, p: Piece, moves: seq<Vector>, k: nat, found: seq<Board>, more: seq<Board>)
    requires WellFormed(b) && InBounds(p.position)
    requires forall j :: 0 <= j < |moves| ==> InBounds(moves[j])
    requires k < |moves| && TryMoves(b, p, moves[..k]) == Ok(found)
    requires TryChoices(b, p, moves[k], PromotionChoices(p, moves[k])) == Ok(more)
    ensures TryMoves(b, p, moves[..k + 1]) == Ok(found + more)
  {
    assert moves[..k + 1][..k] == moves[..k];
  }

  /** One more destination whose batch panics: the run up to it panics with it. */
  lemma TryMovesFails(b: Board, p: Piece, moves: seq<Vector>, k: nat, found: seq<Board>, panic: Panic)
    requires WellFormed(b) && InBounds(p.position)
    requires forall j :: 0 <= j < |moves| ==> InBounds(moves[j])
    requires k < |moves| && TryMoves(b, p, moves[..k]) == Ok(found)
    requires TryChoices(b, p, moves[k], PromotionChoices(p, moves[k])) == Failed(panic)
    ensures TryMoves(b, p, moves[..k + 1]) == Failed(panic)
  {
    assert moves[..k + 1][..k] == moves[..k];
  }

  /** Lines 458-481 for one piece: the inner loop over its destinations. */
  method GetPieceSuccessors(b: Board, piece: Piece) returns (r: Result<seq<Board>>)
    requires WellFormed(b) && InBounds(piece.position)
    ensures r == PieceSuccessors(b, piece)
  {
    var moves := Pieces.GetPossibleMoves(b, piece);
    PossibleMovesInBounds(b, piece);
    var found: seq<Board> := [];
    var k := 0;
    while k < |moves|
      invariant 0 <= k <= |moves|
      invariant TryMoves(b, piece, moves[..k]) == Ok(found)
    {
      var move := moves[k];
      var more: Result<seq<Board>>;
      if piece.kind == Pawn && (move.Y == 0 || move.Y == 7) {
        more := KeepChoices(b, piece, move, [Some(Knight), Some(Bishop), Some(Rook), Some(Queen)]);
      } else {
        more := KeepChoices(b, piece, move, [None]);
      }
      assert more == TryChoices(b, piece, move, PromotionChoices(piece, move));
      if more.Failed? {
        TryMovesFails(b, piece, moves, k, found, more.panic);
        TryMovesFailedPrefix(b, piece, moves, k + 1);
        return Failed(more.panic);
      }
      TryMovesStep(b, piece, moves, k, found, more.value);
      found := found + more.value;
      k := k + 1;
    }
    assert moves[..k] == moves;
    r := Ok(found);
  }

  /**
   * Lines 460-479 for one destination: one `MakeMove` per promotion argument
   * (the four types in order for a pawn reaching rank 0 or 7, none otherwise),
   * keeping the results that pass `verifyBoardState`.
   */
  method KeepChoices(b: Board, piece: Piece, move: Vector, cs: seq<Option<Kind>>) returns (r: Result<seq<Board>>)
    requires Legal(b, piece, move)
    ensures r == TryChoices(b, piece, move, cs)
  {
    ghost var outs := Outcomes(b, piece, move, cs);
    var found: seq<Board> := [];
    var k := 0;
    while k < |cs|
      invariant 0 <= k <= |cs|
      invariant Gather(outs[..k]) == Ok(found)
    {
      GatherStep(outs, k);
      var next := MakeMove(b, piece, move, cs[k]);
      assert outs[k] == next;
      if next.Failed? {
        GatherFailedPrefix(outs, k + 1);
        return Failed(next.panic);
      }
      if VerifyBoardState(next.value) {
        found := found + [next.value];
      } else {
        assert found + [] == found;
      }
      k := k + 1;
    }
    assert outs[..k] == outs;
    r := Ok(found);
  }

  /** Failure is final: once a prefix of the results panics, so does the whole run. */
  lemma {:induction false} GatherFailedPrefix(outs: seq<Result<Board>>, k: nat)
    requires k <= |outs| && Gather(outs[..k]).Failed?
    ensures Gather(outs) == Gather(outs[..k])
    decreases |outs| - k
  {
    if k < |outs| {
      var front := outs[..|outs| - 1];
      assert front[..k] == outs[..k];
      GatherFailedPrefix(front, k);
    } else {
      assert outs[..k] == outs;
    }
  }

  /** `getPossibleMoves` (lines 454-487). */
  method GetPossibleMoves(b: Board) returns (r: Result<seq<Board>>)
    requires WellFormed(b)
    ensures r == PossibleBoards(b)
  {
    var returnStates: seq<Board> := [];
    var i := 0;
    while i < |b.pieces|
      invariant 0 <= i <= |b.pieces|
      invariant Successors(b, b.pieces[..i]) == Ok(returnStates)
    {
      var piece := b.pieces[i];
      assert b.pieces[..i + 1][..i] == b.pieces[..i];
      if piece.colour == b.colourToMove {
        var more := GetPieceSuccessors(b, piece);
        if more.Failed? {
          SuccessorsFailedPrefix(b, b.pieces, i + 1);
          return Failed(more.panic);
        }
        returnStates := returnStates + more.value;
      }
      i := i + 1;
    }
    assert b.pieces[..i] == b.pieces;
    r := Ok(returnStates);
  }

  // ---------------------------------------------------------------------
  // BoardInitialise (lines 56-114)
  // ---------------------------------------------------------------------

  /**
   * The result the three tests of lines 96-108 leave, given the check flags,
   * the number n of successors and the material: the stalemate test is applied
   * last and so wins, then white's mate, then black's.
   */
  function Judge(b: Board, n: nat): (w: WinState)
    ensures w == Stalemate <==>
              OwnsNonKing(b.pieces, Black) || OwnsNonKing(b.pieces, White) || b.fiftyMoveCounter >= 100
              || (n == 0 && !b.isBlackChecked && !b.isWhiteChecked)
    ensures w == BlackWon <==>
              n == 0 && b.isWhiteChecked
              && !OwnsNonKing(b.pieces, Black) && !OwnsNonKing(b.pieces, White) && b.fiftyMoveCounter < 100
    ensures w == WhiteWon <==>
              n == 0 && b.isBlackChecked && !b.isWhiteChecked
              && !OwnsNonKing(b.pieces, Black) && !OwnsNonKing(b.pieces, White) && b.fiftyMoveCounter < 100
    ensures w == Undecided <==>
              n > 0 && !OwnsNonKing(b.pieces, Black) && !OwnsNonKing(b.pieces, White) && b.fiftyMoveCounter < 100
  {
    var blackMated := b.isBlackChecked && n == 0;
    var whiteMated := b.isWhiteChecked && n == 0;
    var stale := (!b.isBlackChecked && !b.isWhiteChecked && n == 0)
                 || OwnsNonKing(b.pieces, Black) || OwnsNonKing(b.pieces, White) || b.fiftyMoveCounter >= 100;
    var w := if blackMated then WhiteWon else Undecided;
    var w := if whiteMated then BlackWon else w;
    if stale then Stalemate else w
  }

  /** Lines 57-90: the grid built from the list, blank covered maps, no checks, no result, no children. */
  function Fresh(pieces: seq<Piece>, enPassantRank: int, colourToMove: Colour,
                 canBlackKingSideCastle: bool, canBlackQueenSideCastle: bool,
                 canWhiteKingSideCastle: bool, canWhiteQueenSideCastle: bool,
                 lastMoveString: string, moveCounter: int, fiftyMoveCounter: int): (b: Board)
    requires AllInBounds(pieces)
    ensures IsGrid(b.squares) && AllInBounds(b.pieces)
  {
    var blank := seq(8, _ => seq(8, _ => false));
    Board(pieces, GridOf(pieces), enPassantRank,
          canBlackKingSideCastle, canBlackQueenSideCastle, canWhiteKingSideCastle, canWhiteQueenSideCastle,
          colourToMove, blank, blank, false, false, Undecided, [], lastMoveString, moveCounter, fiftyMoveCounter)
  }

  /**
   * `BoardInitialise`: recompute coverage and checks, judge the position
   * from the successors, then store the successors of the judged board as
   * its children. A panic anywhere is the result.
   */
  function Initialise(pieces: seq<Piece>, enPassantRank: int, colourToMove: Colour,
                      canBlackKingSideCastle: bool, canBlackQueenSideCastle: bool,
                      canWhiteKingSideCastle: bool, canWhiteQueenSideCastle: bool,
                      lastMoveString: string, moveCounter: int, fiftyMoveCounter: int): Result<Board>
    requires AllInBounds(pieces)
  {
    var checked := Recover(Fresh(pieces, enPassantRank, colourToMove,
                                 canBlackKingSideCastle, canBlackQueenSideCastle,
                                 canWhiteKingSideCastle, canWhiteQueenSideCastle,
                                 lastMoveString, moveCounter, fiftyMoveCounter));
    var winner :- Verdict(checked);
    var judged := checked.(winner := winner);
    var children :- PossibleBoards(judged);
    Ok(judged.(children := children))
  }

  /** Lines 96-108: the result judged from the successors of the checked board. */
  function Verdict(b: Board): Result<WinState>
    requires WellFormed(b)
  {
    var moves :- PossibleBoards(b);
    Ok(Judge(b, |moves|))
  }

  /** `BoardInitialise` (lines 56-114). */
  method BoardInitialise(pieces: seq<Piece>, enPassantRank: int, colourToMove: Colour,
                         canBlackKingSideCastle: bool, canBlackQueenSideCastle: bool,
                         canWhiteKingSideCastle: bool, canWhiteQueenSideCastle: bool,
                         lastMoveString: string, moveCounter: int, fiftyMoveCounter: int)
    returns (r: Result<Board>)
    requires AllInBounds(pieces)
    ensures r == Initialise(pieces, enPassantRank, colourToMove,
                            canBlackKingSideCastle, canBlackQueenSideCastle,
                            canWhiteKingSideCastle, canWhiteQueenSideCastle,
                            lastMoveString, moveCounter, fiftyMoveCounter)
  {
    var squares := BuildGrid(pieces);
    var coveredSquares := seq(8, _ => seq(8, _ => false));
    var returnState := Board(pieces, squares, enPassantRank,
                             canBlackKingSideCastle, canBlackQueenSideCastle,
                             canWhiteKingSideCastle, canWhiteQueenSideCastle,
                             colourToMove, coveredSquares, coveredSquares, false, false, Undecided, [],
                             lastMoveString, moveCounter, fiftyMoveCounter);
    returnState := RecoverCoverage(returnState);
    var winner :- GetVerdict(returnState);
    returnState := returnState.(winner := winner);
    var children :- GetPossibleMoves(returnState);
    r := Ok(returnState.(children := children));
  }

  /** Lines 96-108, evaluating `getPossibleMoves` only where the short-circuit tests reach it. */
  method GetVerdict(returnState: Board) returns (r: Result<WinState>)
    requires WellFormed(returnState)
    ensures r == Verdict(returnState)
  {
    var isBlackMated := false;
    if returnState.isBlackChecked {
      var moves := GetPossibleMoves(returnState);
      if moves.Failed? {
        return Failed(moves.panic);
      }
      isBlackMated := |moves.value| == 0;
    }
    var isWhiteMated := false;
    if returnState.isWhiteChecked {
      var moves := GetPossibleMoves(returnState);
      if moves.Failed? {
        return Failed(moves.panic);
      }
      isWhiteMated := |moves.value| == 0;
    }
    var isStale := false;
    if !returnState.isBlackChecked && !returnState.isWhiteChecked {
      var moves := GetPossibleMoves(returnState);
      if moves.Failed? {
        return Failed(moves.panic);
      }
      isStale := |moves.value| == 0;
    }
    if !isStale {
      isStale := CheckSufficientMaterial(returnState, Black);
    }
    if !isStale {
      isStale := CheckSufficientMaterial(returnState, White);
    }
    isStale := isStale || returnState.fiftyMoveCounter >= 100;

    var winner := Undecided;
    if isBlackMated {
      winner := WhiteWon;
    }
    if isWhiteMated {
      winner := BlackWon;
    }
    if isStale {
      winner := Stalemate;
    }
    r := Ok(winner);
  }

  /** `BoardInitialise` keeps the list and the given fields, and builds the grid from the list. */
  lemma InitialiseFields(pieces: seq<Piece>, enPassantRank: int, colourToMove: Colour,
                         canBlackKingSideCastle: bool, canBlackQueenSideCastle: bool,
                         canWhiteKingSideCastle: bool, canWhiteQueenSideCastle: bool,
                         lastMoveString: string, moveCounter: int, fiftyMoveCounter: int)
    requires AllInBounds(pieces)
    requires Initialise(pieces, enPassantRank, colourToMove,
                        canBlackKingSideCastle, canBlackQueenSideCastle,
                        canWhiteKingSideCastle, canWhiteQueenSideCastle,
                        lastMoveString, moveCounter, fiftyMoveCounter).Ok?
    ensures var r := Initialise(pieces, enPassantRank, colourToMove,
                                canBlackKingSideCastle, canBlackQueenSideCastle,
                                canWhiteKingSideCastle, canWhiteQueenSideCastle,
                                lastMoveString, moveCounter, fiftyMoveCounter).value;
            && WellFormed(r) && r.pieces == pieces && r.squares == GridOf(pieces)
            && r.enPassantRank == enPassantRank && r.colourToMove == colourToMove
            && r.canBlackKingSideCastle == canBlackKingSideCastle && r.canBlackQueenSideCastle == canBlackQueenSideCastle
            && r.canWhiteKingSideCastle == canWhiteKingSideCastle && r.canWhiteQueenSideCastle == canWhiteQueenSideCastle
            && r.lastMoveString == lastMoveString && r.moveCounter == moveCounter
            && r.fiftyMoveCounter == fiftyMoveCounter
  {
  }

  /** The board `BoardInitialise` returns is the checked board with a result and children added. */
  lemma InitialiseShape(pieces: seq<Piece>, enPassantRank: int, colourToMove: Colour,
                        canBlackKingSideCastle: bool, canBlackQueenSideCastle: bool,
                        canWhiteKingSideCastle: bool, canWhiteQueenSideCastle: bool,
                        lastMoveString: string, moveCounter: int, fiftyMoveCounter: int)
    returns (start: Board, r: Board)
    requires AllInBounds(pieces)
    requires Initialise(pieces, enPassantRank, colourToMove,
                        canBlackKingSideCastle, canBlackQueenSideCastle,
                        canWhiteKingSideCastle, canWhiteQueenSideCastle,
                        lastMoveString, moveCounter, fiftyMoveCounter).Ok?
    ensures IsGrid(start.squares) && AllInBounds(start.pieces)
    ensures r == Initialise(pieces, enPassantRank, colourToMove,
                            canBlackKingSideCastle, canBlackQueenSideCastle,
                            canWhiteKingSideCastle, canWhiteQueenSideCastle,
                            lastMoveString, moveCounter, fiftyMoveCounter).value
    ensures r == Recover(start).(winner := r.winner, children := r.children)
    ensures r.pieces == start.pieces && r.squares == start.squares
  {
    start := Fresh(pieces, enPassantRank, colourToMove,
                   canBlackKingSideCastle, canBlackQueenSideCastle,
                   canWhiteKingSideCastle, canWhiteQueenSideCastle,
                   lastMoveString, moveCounter, fiftyMoveCounter);
    r := Initialise(pieces, enPassantRank, colourToMove,
                    canBlackKingSideCastle, canBlackQueenSideCastle,
                    canWhiteKingSideCastle, canWhiteQueenSideCastle,
                    lastMoveString, moveCounter, fiftyMoveCounter).value;
  }

  /** On the board `BoardInitialise` returns, both covered maps and both check flags are up to date. */
  lemma InitialiseCoverage(pieces: seq<Piece>, enPassantRank: int, colourToMove: Colour,
                           canBlackKingSideCastle: bool, canBlackQueenSideCastle: bool,
                           canWhiteKingSideCastle: bool, canWhiteQueenSideCastle: bool,
                           lastMoveString: string, moveCounter: int, fiftyMoveCounter: int)
    requires AllInBounds(pieces)
    requires Initialise(pieces, enPassantRank, colourToMove,
                        canBlackKingSideCastle, canBlackQueenSideCastle,
                        canWhiteKingSideCastle, canWhiteQueenSideCastle,
                        lastMoveString, moveCounter, fiftyMoveCounter).Ok?
    ensures var r := Initialise(pieces, enPassantRank, colourToMove,
                                canBlackKingSideCastle, canBlackQueenSideCastle,
                                canWhiteKingSideCastle, canWhiteQueenSideCastle,
                                lastMoveString, moveCounter, fiftyMoveCounter).value;
            && WellFormed(r)
            && r.coveredSquaresWhite == CoveredMap(r, White) && r.coveredSquaresBlack == CoveredMap(r, Black)
            && r.isWhiteChecked == KingCovered(r, White) && r.isBlackChecked == KingCovered(r, Black)
  {
    var start, r := InitialiseShape(pieces, enPassantRank, colourToMove,
                                    canBlackKingSideCastle, canBlackQueenSideCastle,
                                    canWhiteKingSideCastle, canWhiteQueenSideCastle,
                                    lastMoveString, moveCounter, fiftyMoveCounter);
    CoveredMapFrame(start, r, White);
    CoveredMapFrame(start, r, Black);
  }

  /**
   * The children `BoardInitialise` stores: each passes the check test, hands
   * the move to the other side, leaves the mover's king uncovered, and carries
   * the parent's result and no children of its own.
   */
  lemma InitialiseChildren(pieces: seq<Piece>, enPassantRank: int, colourToMove: Colour,
                           canBlackKingSideCastle: bool, canBlackQueenSideCastle: bool,
                           canWhiteKingSideCastle: bool, canWhiteQueenSideCastle: bool,
                           lastMoveString: string, moveCounter: int, fiftyMoveCounter: int, child: Board)
    requires AllInBounds(pieces)
    requires Initialise(pieces, enPassantRank, colourToMove,
                        canBlackKingSideCastle, canBlackQueenSideCastle,
                        canWhiteKingSideCastle, canWhiteQueenSideCastle,
                        lastMoveString, moveCounter, fiftyMoveCounter).Ok?
    requires child in Initialise(pieces, enPassantRank, colourToMove,
                                 canBlackKingSideCastle, canBlackQueenSideCastle,
                                 canWhiteKingSideCastle, canWhiteQueenSideCastle,
                                 lastMoveString, moveCounter, fiftyMoveCounter).value.children
    ensures VerifyBoardState(child) && child.colourToMove == Opponent(colourToMove)
    ensures WellFormed(child) && !KingCovered(child, colourToMove)
    ensures child.winner == Initialise(pieces, enPassantRank, colourToMove,
                                       canBlackKingSideCastle, canBlackQueenSideCastle,
                                       canWhiteKingSideCastle, canWhiteQueenSideCastle,
                                       lastMoveString, moveCounter, fiftyMoveCounter).value.winner
    ensures child.children == []
  {
    var checked := Recover(Fresh(pieces, enPassantRank, colourToMove,
                                 canBlackKingSideCastle, canBlackQueenSideCastle,
                                 canWhiteKingSideCastle, canWhiteQueenSideCastle,
                                 lastMoveString, moveCounter, fiftyMoveCounter));
    var judged := checked.(winner := Verdict(checked).value);
    SuccessorsAreSafe(judged, child);
  }

  /**
   * The result `BoardInitialise` records: with any piece besides the kings on
   * the board, or fifty moves without progress, it is a stalemate; a side wins
   * only when both lists hold nothing but kings, the loser is in check and the
   * side to move has no successor; undecided means a successor exists.
   */
  lemma InitialiseWinner(pieces: seq<Piece>, enPassantRank: int, colourToMove: Colour,
                         canBlackKingSideCastle: bool, canBlackQueenSideCastle: bool,
                         canWhiteKingSideCastle: bool, canWhiteQueenSideCastle: bool,
                         lastMoveString: string, moveCounter: int, fiftyMoveCounter: int)
    requires AllInBounds(pieces)
    requires Initialise(pieces, enPassantRank, colourToMove,
                        canBlackKingSideCastle, canBlackQueenSideCastle,
                        canWhiteKingSideCastle, canWhiteQueenSideCastle,
                        lastMoveString, moveCounter, fiftyMoveCounter).Ok?
    ensures var r := Initialise(pieces, enPassantRank, colourToMove,
                                canBlackKingSideCastle, canBlackQueenSideCastle,
                                canWhiteKingSideCastle, canWhiteQueenSideCastle,
                                lastMoveString, moveCounter, fiftyMoveCounter).value;
            && (OwnsNonKing(pieces, White) || OwnsNonKing(pieces, Black) || fiftyMoveCounter >= 100
                ==> r.winner == Stalemate)
            && (r.winner == WhiteWon ==> r.isBlackChecked && !r.isWhiteChecked && !OwnsNonKing(pieces, White) && !OwnsNonKing(pieces, Black))
            && (r.winner == BlackWon ==> r.isWhiteChecked && !OwnsNonKing(pieces, White) && !OwnsNonKing(pieces, Black))
            && (r.winner != Stalemate ==> fiftyMoveCounter < 100)
  {
  }

  // ---------------------------------------------------------------------
  // NewBoard (lines 116-142)
  // ---------------------------------------------------------------------

  /** The sixteen pieces of the literal list of lines 118-135: rooks, knights, bishops, queens, kings. */
  function Officers(): (ps: seq<Piece>)
    ensures |ps| == 16
  {
    [ Piece(Rook, White, Vector(0, 0)), Piece(Rook, White, Vector(7, 0)),
      Piece(Rook, Black, Vector(0, 7)), Piece(Rook, Black, Vector(7, 7)),
      Piece(Knight, White, Vector(1, 0)), Piece(Knight, White, Vector(6, 0)),
      Piece(Knight, Black, Vector(1, 7)), Piece(Knight, Black, Vector(6, 7)),
      Piece(Bishop, White, Vector(2, 0)), Piece(Bishop, White, Vector(5, 0)),
      Piece(Bishop, Black, Vector(2, 7)), Piece(Bishop, Black, Vector(5, 7)),
      Piece(Queen, White, Vector(3, 0)), Piece(Queen, Black, Vector(3, 7)),
      Piece(King, White, Vector(4, 0)), Piece(King, Black, Vector(4, 7)) ]
  }

  /** The pawns the loop of lines 137-140 appends in its first n rounds: a white pawn on rank 1, then a black one on rank 6. */
  function PawnRows(n: nat): seq<Piece> {
    if n == 0 then []
    else PawnRows(n - 1) + [Piece(Pawn, White, Vector(n - 1, 1)), Piece(Pawn, Black, Vector(n - 1, 6))]
  }

  /** The list `NewBoard` passes to `BoardInitialise`. */
  function StartPieces(): seq<Piece> {
    Officers() + PawnRows(8)
  }

  /** `NewBoard` (lines 116-142). */
  method NewBoard() returns (r: Result<Board>)
    ensures StartFacts() && r == Initialise(StartPieces(), -1, White, true, true, true, true, "", 1, 0)
    ensures r.Ok?
  {
    var pieces := [ Piece(Rook, White, Vector(0, 0)), Piece(Rook, White, Vector(7, 0)),
                    Piece(Rook, Black, Vector(0, 7)), Piece(Rook, Black, Vector(7, 7)),
                    Piece(Knight, White, Vector(1, 0)), Piece(Knight, White, Vector(6, 0)),
                    Piece(Knight, Black, Vector(1, 7)), Piece(Knight, Black, Vector(6, 7)),
                    Piece(Bishop, White, Vector(2, 0)), Piece(Bishop, White, Vector(5, 0)),
                    Piece(Bishop, Black, Vector(2, 7)), Piece(Bishop, Black, Vector(5, 7)),
                    Piece(Queen, White, Vector(3, 0)), Piece(Queen, Black, Vector(3, 7)),
                    Piece(King, White, Vector(4, 0)), Piece(King, Black, Vector(4, 7)) ];
    var i := 0;
    while i < 8
      invariant 0 <= i <= 8
      invariant pieces == Officers() + PawnRows(i)
    {
      pieces := pieces + [Piece(Pawn, White, Vector(i, 1))];
      pieces := pieces + [Piece(Pawn, Black, Vector(i, 6))];
      i := i + 1;
    }
    StartPlacement();
    StartInitialises();
    r := BoardInitialise(pieces, -1, White, true, true, true, true, "", 1, 0);
  }

  /** The first n rounds of pawns: 2n pawns, white on rank 1 and black on rank 6, on files below n. */
  lemma {:induction false} PawnRowsFacts(n: nat)
    ensures |PawnRows(n)| == 2 * n
    ensures forall k :: 0 <= k < 2 * n ==>
              var p := PawnRows(n)[k];
              p.kind == Pawn && 0 <= p.position.X < n
              && ((p.colour == White && p.position.Y == 1) || (p.colour == Black && p.position.Y == 6))
  {
    if n > 0 {
      PawnRowsFacts(n - 1);
      var front := PawnRows(n - 1);
      forall k | 0 <= k < 2 * n - 2
        ensures PawnRows(n)[k] == front[k]
      {
      }
    }
  }

  /** No two of the pawns share a square. */
  lemma {:induction false} PawnRowsDistinct(n: nat)
    ensures |PawnRows(n)| == 2 * n
    ensures forall i, j :: 0 <= i < j < 2 * n ==> PawnRows(n)[i].position != PawnRows(n)[j].position
  {
    PawnRowsFacts(n);
    if n > 0 {
      PawnRowsDistinct(n - 1);
      PawnRowsFacts(n - 1);
      var front := PawnRows(n - 1);
      forall k | 0 <= k < 2 * n - 2
        ensures PawnRows(n)[k] == front[k]
      {
      }
    }
  }

  /** The starting list stands on the board, as `BoardInitialise` needs. */
  ghost predicate StartFacts() {
    AllInBounds(StartPieces())
  }

  lemma OfficersPlaced()
    ensures forall i :: 0 <= i < 16 ==> InBounds(Officers()[i].position)
    ensures forall i :: 0 <= i < 16 ==> Officers()[i].position.Y == 0 || Officers()[i].position.Y == 7
  {
  }

  lemma OfficersDistinct()
    ensures forall i, j :: 0 <= i < j < 16 ==> Officers()[i].position != Officers()[j].position
  {
  }

  lemma OfficersKings()
    ensures forall i :: 0 <= i < 16 && Officers()[i].kind == King ==> i == 14 || i == 15
  {
  }

  lemma CountStep(ps: seq<Piece>, k: nat, c: Colour)
    requires k < |ps|
    ensures CountColour(ps[..k + 1], c) == CountColour(ps[..k], c) + (if ps[k].colour == c then 1 else 0)
  {
    assert ps[..k + 1][..k] == ps[..k];
  }

  lemma OfficersCountLow()
    ensures CountColour(Officers()[..8], White) == 4
  {
    var o := Officers();
    assert o[..0] == [];
    CountStep(o, 0, White); CountStep(o, 1, White); CountStep(o, 2, White); CountStep(o, 3, White);
    CountStep(o, 4, White); CountStep(o, 5, White); CountStep(o, 6, White); CountStep(o, 7, White);
  }

  lemma OfficersCountMid()
    ensures CountColour(Officers()[..12], White) == 6
  {
    var o := Officers();
    OfficersCountLow();
    CountStep(o, 8, White); CountStep(o, 9, White); CountStep(o, 10, White); CountStep(o, 11, White);
  }

  /** Eight pieces of each colour among the officers. */
  lemma OfficersCount()
    ensures CountColour(Officers(), White) == 8 && CountColour(Officers(), Black) == 8
  {
    var o := Officers();
    OfficersCountMid();
    CountStep(o, 12, White); CountStep(o, 13, White); CountStep(o, 14, White); CountStep(o, 15, White);
    assert o[..16] == o;
    CountsPartition(o);
  }

  lemma StartCount(n: nat, c: Colour)
    ensures CountColour(Officers() + PawnRows(n), c) == 8 + n
  {
    OfficersCount();
    PawnRowsCount(Officers(), n, c);
  }

  /** Each row of pawns adds one piece of each colour. */
  lemma {:induction false} PawnRowsCount(front: seq<Piece>, n: nat, c: Colour)
    ensures CountColour(front + PawnRows(n), c) == CountColour(front, c) + n
  {
    if n == 0 {
      assert front + PawnRows(0) == front;
    } else {
      PawnRowsCount(front, n - 1, c);
      var mid := front + PawnRows(n - 1);
      var white := Piece(Pawn, White, Vector(n - 1, 1));
      var black := Piece(Pawn, Black, Vector(n - 1, 6));
      PawnRowsPush(front, n);
      CountPush(mid, white, c);
      CountPush(mid + [white], black, c);
    }
  }

  lemma PawnRowsPush(front: seq<Piece>, n: nat)
    requires n > 0
    ensures front + PawnRows(n) == front + PawnRows(n - 1) + [Piece(Pawn, White, Vector(n - 1, 1))] + [Piece(Pawn, Black, Vector(n - 1, 6))]
  {
  }

  lemma CountPush(ps: seq<Piece>, p: Piece, c: Colour)
    ensures CountColour(ps + [p], c) == CountColour(ps, c) + (if p.colour == c then 1 else 0)
  {
    assert (ps + [p])[..|ps|] == ps;
  }

  /** The starting list: thirty-two pieces on the board, no two on one square. */
  lemma StartPlacement()
    ensures StartFacts() && |StartPieces()| == 32
    ensures forall i, j :: 0 <= i < j < 32 ==> StartPieces()[i].position != StartPieces()[j].position
  {
    var ps := StartPieces();
    var pawns := PawnRows(8);
    PawnRowsFacts(8);
    PawnRowsDistinct(8);
    OfficersPlaced();
    OfficersDistinct();
    forall i | 0 <= i < 32
      ensures ps[i] == if i < 16 then Officers()[i] else pawns[i - 16]
    {
    }
  }

  /** Sixteen pieces of each colour. */
  lemma StartCounts()
    ensures CountColour(StartPieces(), White) == 16 && CountColour(StartPieces(), Black) == 16
  {
    StartCount(8, White);
    StartCount(8, Black);
  }

  /** One king of each colour: the white one at index 14, the black one at 15. */
  lemma StartKings()
    ensures forall i :: 0 <= i < |StartPieces()| && StartPieces()[i].kind == King ==> i == 14 || i == 15
    ensures StartPieces()[14] == Piece(King, White, Vector(4, 0)) && StartPieces()[15] == Piece(King, Black, Vector(4, 7))
  {
    var ps := StartPieces();
    var pawns := PawnRows(8);
    PawnRowsFacts(8);
    OfficersKings();
    forall i | 16 <= i < 32
      ensures ps[i] == pawns[i - 16]
    {
    }
  }

  /** A king that is the only one of its colour is the one found first. */
  lemma FirstKingUnique(ps: seq<Piece>, c: Colour, k: nat)
    requires k < |ps| && ps[k].kind == King && ps[k].colour == c
    requires forall i :: 0 <= i < |ps| && ps[i].kind == King && ps[i].colour == c ==> i == k
    ensures FirstKing(ps, c) == Some(k)
  {
  }

  /** Each side's king is the one `getIsWhiteChecked` and `getIsBlackChecked` find first. */
  lemma StartFirstKings()
    ensures FirstKing(StartPieces(), White) == Some(14) && FirstKing(StartPieces(), Black) == Some(15)
  {
    StartKings();
    KingsFirst(StartPieces());
  }

  /** In a list whose only kings are a white one at 14 and a black one at 15, those are the ones found first. */
  lemma KingsFirst(ps: seq<Piece>)
    requires 16 <= |ps|
    requires forall i :: 0 <= i < |ps| && ps[i].kind == King ==> i == 14 || i == 15
    requires ps[14] == Piece(King, White, Vector(4, 0)) && ps[15] == Piece(King, Black, Vector(4, 7))
    ensures FirstKing(ps, White) == Some(14) && FirstKing(ps, Black) == Some(15)
  {
    FirstKingUnique(ps, White, 14);
    FirstKingUnique(ps, Black, 15);
  }

  /** A piece alone on its square is the last one there. */
  lemma LastAtUnique(ps: seq<Piece>, k: nat)
    requires k < |ps|
    requires forall j :: 0 <= j < |ps| && j != k ==> ps[j].position != ps[k].position
    ensures LastAt(ps, ps[k].position) == Some(k)
  {
  }

  /** The first four entries of the starting list are the corner rooks, each alone on its square. */
  lemma StartCorners()
    ensures |StartPieces()| == 32
    ensures StartPieces()[..4] == Officers()[..4]
    ensures forall k :: 0 <= k < 4 ==> LastAt(StartPieces(), StartPieces()[k].position) == Some(k)
  {
    StartPlacement();
    forall k | 0 <= k < 4
      ensures LastAt(StartPieces(), StartPieces()[k].position) == Some(k)
    {
      LastAtUnique(StartPieces(), k);
    }
  }

  /** The four rooks of the starting list hold the four corners. */
  lemma StartCornersHeld(b: Board)
    requires b.pieces == StartPieces()
    ensures CornersHeld(b)
  {
    StartCorners();
    var ps := StartPieces();
    assert ps[0] == Officers()[..4][0] && ps[1] == Officers()[..4][1];
    assert ps[2] == Officers()[..4][2] && ps[3] == Officers()[..4][3];
    assert LastAt(ps, ps[0].position) == Some(0) && LastAt(ps, ps[1].position) == Some(1);
    assert LastAt(ps, ps[2].position) == Some(2) && LastAt(ps, ps[3].position) == Some(3);
  }

  /** Lines 116-142: `newBoard` initialises the starting position without a panic. */
  lemma StartInitialises()
    ensures StartFacts()
    ensures Initialise(StartPieces(), -1, White, true, true, true, true, "", 1, 0).Ok?
  {
    StartPlacement();
    var checked := Recover(Fresh(StartPieces(), -1, White, true, true, true, true, "", 1, 0));
    StartCornersHeld(checked);
    PossibleBoardsOk(checked);
    var judged := checked.(winner := Verdict(checked).value);
    StartCornersHeld(judged);
    PossibleBoardsOk(judged);
  }

  /**
   * As written, the starting position is recorded as a stalemate: each side
   * owns pieces besides its king, and the material test of `isStalemate`
   * counts that as a draw. The side to move is White with all four castling
   * rights, no en passant file and move number 1.
   */
  lemma NewBoardStalemate()
    ensures StartFacts() && Initialise(StartPieces(), -1, White, true, true, true, true, "", 1, 0).Ok?
    ensures var r := Initialise(StartPieces(), -1, White, true, true, true, true, "", 1, 0).value;
            && r.winner == Stalemate && r.colourToMove == White && r.enPassantRank == -1
            && r.canWhiteKingSideCastle && r.canWhiteQueenSideCastle
            && r.canBlackKingSideCastle && r.canBlackQueenSideCastle
            && r.moveCounter == 1 && r.fiftyMoveCounter == 0 && |r.pieces| == 32
  {
    StartInitialises();
    StartKings();
    var ps := StartPieces();
    assert ps[0] == Officers()[0];
    assert OwnsNonKing(ps, White);
    InitialiseWinner(ps, -1, White, true, true, true, true, "", 1, 0);
    InitialiseFields(ps, -1, White, true, true, true, true, "", 1, 0);
  }
}
