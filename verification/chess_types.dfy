/**
 * The data model shared by move generation, move application and search:
 * colours, piece types and their movement table, pieces, and the board.
 */
module ChessTypes {
  import opened Wrappers
  import opened Utils

  datatype Colour = Black | White

  function Opponent(c: Colour): (r: Colour)
    ensures r != c
  {
    if c == White then Black else White
  }

  /** The six piece types; each stands for one entry of the piece table. */
  datatype Kind = Pawn | Knight | Bishop | Rook | Queen | King

  /** The one-letter sign of a piece type. Black and White share the same (upper-case) sign. */
  function Sign(k: Kind): (s: string)
    ensures |s| == 1 && 'A' <= s[0] <= 'Z'
  {
    match k
    case Pawn => "P"
    case Knight => "N"
    case Bishop => "B"
    case Rook => "R"
    case Queen => "Q"
    case King => "K"
  }

  /** Sliding directions; each is walked in both senses. */
  function MoveDirections(k: Kind): (ds: seq<Vector>)
    ensures forall i :: 0 <= i < |ds| ==> ds[i] != Vector(0, 0)
    ensures ds != [] <==> k in {Bishop, Rook, Queen}
  {
    match k
    case Rook => [Vector(0, 1), Vector(1, 0)]
    case Bishop => [Vector(-1, 1), Vector(1, 1)]
    case Queen => [Vector(0, 1), Vector(1, 0), Vector(-1, 1), Vector(1, 1)]
    case _ => []
  }

  /** Offsets applied once. */
  function OtherMoves(k: Kind): (os: seq<Vector>)
    ensures forall i :: 0 <= i < |os| ==> os[i] != Vector(0, 0)
    ensures os != [] <==> k in {Knight, King}
  {
    match k
    case Knight => [Vector(2, 1), Vector(-2, 1), Vector(2, -1), Vector(-2, -1),
                    Vector(1, 2), Vector(-1, 2), Vector(1, -2), Vector(-1, -2)]
    case King => [Vector(1, -1), Vector(1, 0), Vector(1, 1), Vector(0, -1),
                  Vector(0, 1), Vector(-1, -1), Vector(-1, 0), Vector(-1, 1)]
    case _ => []
  }

  /** `Piece.clone` copies the three fields, so a piece is a value. */
  datatype Piece = Piece(kind: Kind, colour: Colour, position: Vector)

  datatype WinState = BlackWon | WhiteWon | Stalemate | Undecided

  /** `squares[x][y]`: the piece (if any) the grid holds for file x and rank y. */
  type Grid = seq<seq<Option<Piece>>>

  predicate IsGrid<T>(g: seq<seq<T>>) {
    |g| == 8 && forall x :: 0 <= x < 8 ==> |g[x]| == 8
  }

  /**
   * A board. The grid holds piece values; where the source shares one piece
   * object between `pieces` and `squares`, every update to that object is made
   * to both. `children` is the memoized list of legal successors.
   */
  datatype Board = Board(
    pieces: seq<Piece>,
    squares: Grid,
    enPassantRank: int,
    canBlackKingSideCastle: bool,
    canBlackQueenSideCastle: bool,
    canWhiteKingSideCastle: bool,
    canWhiteQueenSideCastle: bool,
    colourToMove: Colour,
    coveredSquaresWhite: seq<seq<bool>>,
    coveredSquaresBlack: seq<seq<bool>>,
    isWhiteChecked: bool,
    isBlackChecked: bool,
    winner: WinState,
    children: seq<Board>,
    lastMoveString: string,
    moveCounter: int,
    fiftyMoveCounter: int)

  /** Every piece of the list stands on the board; the grid and both covered maps are 8x8. */
  predicate WellFormed(b: Board) {
    && IsGrid(b.squares)
    && IsGrid(b.coveredSquaresWhite)
    && IsGrid(b.coveredSquaresBlack)
    && forall i :: 0 <= i < |b.pieces| ==> InBounds(b.pieces[i].position)
  }

  /** `getSquare(x, y)`; indices outside the grid would panic in the source. */
  function GetSquare(b: Board, x: int, y: int): Option<Piece>
    requires IsGrid(b.squares) && 0 <= x < 8 && 0 <= y < 8
  {
    b.squares[x][y]
  }

  /** v is on the board and its grid cell is empty. */
  predicate Free(b: Board, v: Vector)
    requires IsGrid(b.squares)
  {
    InBounds(v) && GetSquare(b, v.X, v.Y).None?
  }

  /** v is on the board and its grid cell is empty or holds a piece of another colour than c. */
  predicate EmptyOrEnemy(b: Board, v: Vector, c: Colour)
    requires IsGrid(b.squares)
  {
    InBounds(v) && (GetSquare(b, v.X, v.Y).None? || GetSquare(b, v.X, v.Y).value.colour != c)
  }

  // ---------------------------------------------------------------------
  // Building the grid from the piece list (BoardInitialise and clone)
  // ---------------------------------------------------------------------

  predicate AllInBounds(ps: seq<Piece>) {
    forall i :: 0 <= i < |ps| ==> InBounds(ps[i].position)
  }

  function EmptyGrid(): (g: Grid)
    ensures IsGrid(g)
  {
    seq(8, _ => seq(8, _ => None))
  }

  /** The grid after `squares[p.X][p.Y] = p`. */
  function Place(g: Grid, p: Piece): (r: Grid)
    requires IsGrid(g) && InBounds(p.position)
    ensures IsGrid(r)
  {
    g[p.position.X := g[p.position.X][p.position.Y := Some(p)]]
  }

  /** The grid filled from the list in order, so a later entry on a shared square wins. */
  function GridOf(ps: seq<Piece>): (g: Grid)
    requires AllInBounds(ps)
    ensures IsGrid(g)
  {
    if ps == [] then EmptyGrid() else Place(GridOf(ps[..|ps| - 1]), ps[|ps| - 1])
  }

  /** The index of the last list entry standing on v, if any. */
  function LastAt(ps: seq<Piece>, v: Vector): (r: Option<nat>)
    ensures r.Some? ==> r.value < |ps| && ps[r.value].position == v
    ensures r.Some? ==> forall j :: r.value < j < |ps| ==> ps[j].position != v
    ensures r.None? <==> forall j :: 0 <= j < |ps| ==> ps[j].position != v
  {
    if ps == [] then None
    else if ps[|ps| - 1].position == v then Some(|ps| - 1)
    else LastAt(ps[..|ps| - 1], v)
  }

  /**
   * Each cell of the built grid holds the last list piece standing on it, and
   * every other cell is empty.
   */
  lemma {:induction false} GridOfCell(ps: seq<Piece>, x: int, y: int)
    requires AllInBounds(ps) && 0 <= x < 8 && 0 <= y < 8
    ensures var k := LastAt(ps, Vector(x, y));
            GridOf(ps)[x][y] == if k.Some? then Some(ps[k.value]) else None
  {
    if ps != [] {
      GridOfCell(ps[..|ps| - 1], x, y);
    }
  }

  /** The grid-filling loop of BoardInitialise (and of clone). */
  method BuildGrid(ps: seq<Piece>) returns (squares: Grid)
    requires AllInBounds(ps)
    ensures squares == GridOf(ps)
  {
    squares := seq(8, _ => seq(8, _ => None));
    var i := 0;
    while i < |ps|
      invariant 0 <= i <= |ps|
      invariant squares == GridOf(ps[..i])
    {
      var piece := ps[i];
      squares := squares[piece.position.X := squares[piece.position.X][piece.position.Y := Some(piece)]];
      assert ps[..i + 1][..i] == ps[..i];
      i := i + 1;
    }
    assert ps[..i] == ps;
  }
}
