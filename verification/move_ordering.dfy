/**
 * The material heuristic and the order in which a search node expands its
 * successors (minimax.go, lines 100-117 and 181-215). Heuristic values are
 * kept in integer twentieths of a pawn, so that 0.1 becomes 2 and 3.25
 * becomes 65.
 */
module MoveOrdering {
  import opened Utils
  import opened ChessTypes

  // ---------------------------------------------------------------------
  // verySimpleHeuristic
  // ---------------------------------------------------------------------

  /**
   * What one piece is worth to its owner: a pawn 1 plus a tenth per rank
   * advanced, a knight 3, a bishop 3.25, a rook 5, a queen 9 and a king a
   * million, in twentieths.
   */
  function PieceValue(p: Piece): (v: int)
    ensures p.kind == Pawn && 0 <= p.position.Y <= 7 ==> 20 <= v <= 34
    ensures p.kind != Pawn ==> v >= 60
  {
    match p.kind
    case Pawn => if p.colour == White then 20 + 2 * p.position.Y else 20 + 2 * (7 - p.position.Y)
    case Knight => 60
    case Bishop => 65
    case Rook => 100
    case Queen => 180
    case King => 20_000_000
  }

  /** The piece's value counted for White: positive for White, negative for Black. */
  function Signed(p: Piece): int {
    if p.colour == Black then -PieceValue(p) else PieceValue(p)
  }

  /** The material balance of a piece list, White minus Black. */
  function Material(ps: seq<Piece>): int {
    if ps == [] then 0 else Material(ps[..|ps| - 1]) + Signed(ps[|ps| - 1])
  }

  /** `verySimpleHeuristic` (lines 181-215): the loop that accumulates the balance. */
  method VerySimpleHeuristic(b: Board) returns (total: int)
    ensures total == Material(b.pieces)
  {
    total := 0;
    var i := 0;
    while i < |b.pieces|
      invariant 0 <= i <= |b.pieces|
      invariant total == Material(b.pieces[..i])
    {
      var piece := b.pieces[i];
      var colourMult := 1;
      if piece.colour == Black {
        colourMult := -1;
      }
      var nextPieceValue := 0;
      if piece.kind == Pawn {
        nextPieceValue := 20;
        if piece.colour == White {
          nextPieceValue := nextPieceValue + piece.position.Y * 2;
        } else {
          nextPieceValue := nextPieceValue + (7 - piece.position.Y) * 2;
        }
      }
      if piece.kind == Knight {
        nextPieceValue := 60;
      }
      if piece.kind == Bishop {
        nextPieceValue := 65;
      }
      if piece.kind == Rook {
        nextPieceValue := 100;
      }
      if piece.kind == Queen {
        nextPieceValue := 180;
      }
      if piece.kind == King {
        nextPieceValue := 20_000_000;
      }
      assert b.pieces[..i + 1][..i] == b.pieces[..i];
      total := total + nextPieceValue * colourMult;
      i := i + 1;
    }
    assert b.pieces[..i] == b.pieces;
  }

  /** The balance of two lists joined is the sum of their balances. */
  lemma {:induction false} MaterialAppend(ps: seq<Piece>, qs: seq<Piece>)
    ensures Material(ps + qs) == Material(ps) + Material(qs)
    decreases |qs|
  {
    if qs == [] {
      assert ps + qs == ps;
    } else {
      MaterialAppend(ps, qs[..|qs| - 1]);
      assert (ps + qs)[..|ps + qs| - 1] == ps + qs[..|qs| - 1];
    }
  }

  /** The same piece for the other side, on the mirrored rank. */
  function Mirror(p: Piece): Piece {
    p.(colour := Opponent(p.colour), position := Vector(p.position.X, 7 - p.position.Y))
  }

  function MirrorAll(ps: seq<Piece>): (qs: seq<Piece>)
    ensures |qs| == |ps| && forall i :: 0 <= i < |ps| ==> qs[i] == Mirror(ps[i])
  {
    seq(|ps|, i requires 0 <= i < |ps| => Mirror(ps[i]))
  }

  /** The heuristic is symmetric: swapping the sides and mirroring the ranks negates the balance. */
  lemma {:induction false} MaterialMirror(ps: seq<Piece>)
    ensures Material(MirrorAll(ps)) == -Material(ps)
    decreases |ps|
  {
    if ps != [] {
      MaterialMirror(ps[..|ps| - 1]);
      assert MirrorAll(ps)[..|ps| - 1] == MirrorAll(ps[..|ps| - 1]);
    }
  }

  /** A king outweighs all the other material a side could have: sixteen queens and knights together stay below it. */
  lemma KingOutweighs(ps: seq<Piece>)
    requires |ps| <= 32 && forall i :: 0 <= i < |ps| ==> ps[i].kind != King && InBounds(ps[i].position)
    ensures -20_000_000 < Material(ps) < 20_000_000
  {
    MaterialBound(ps);
  }

  lemma {:induction false} MaterialBound(ps: seq<Piece>)
    requires forall i :: 0 <= i < |ps| ==> ps[i].kind != King && InBounds(ps[i].position)
    ensures -180 * |ps| <= Material(ps) <= 180 * |ps|
    decreases |ps|
  {
    if ps != [] {
      MaterialBound(ps[..|ps| - 1]);
    }
  }

  // ---------------------------------------------------------------------
  // Ranking the successors (lines 101-108)
  // ---------------------------------------------------------------------

  /** -1 when Black is to move, so that a larger key is always better for the mover. */
  function Mult(b: Board): int {
    if b.colourToMove == Black then -1 else 1
  }

  function Key(b: Board, mult: int): int {
    Material(b.pieces) * mult
  }

  /** The map `rankedStates`: each successor stored under its key, a later one replacing an earlier one with the same key. */
  function Ranked(states: seq<Board>, mult: int): map<int, Board> {
    if states == [] then map[]
    else Ranked(states[..|states| - 1], mult)[Key(states[|states| - 1], mult) := states[|states| - 1]]
  }

  /** The loop of lines 106-108. */
  method RankStates(states: seq<Board>, mult: int) returns (rankedStates: map<int, Board>)
    ensures rankedStates == Ranked(states, mult)
  {
    rankedStates := map[];
    var i := 0;
    while i < |states|
      invariant 0 <= i <= |states|
      invariant rankedStates == Ranked(states[..i], mult)
    {
      var nextState := states[i];
      var value := VerySimpleHeuristic(nextState);
      assert states[..i + 1][..i] == states[..i];
      rankedStates := rankedStates[value * mult := nextState];
      i := i + 1;
    }
    assert states[..i] == states;
  }

  /** Every stored board is one of the successors, filed under its own key. */
  lemma {:induction false} RankedValues(states: seq<Board>, mult: int)
    ensures forall k :: k in Ranked(states, mult) ==> Ranked(states, mult)[k] in states && Key(Ranked(states, mult)[k], mult) == k
    decreases |states|
  {
    if states != [] {
      RankedValues(states[..|states| - 1], mult);
      forall k | k in Ranked(states, mult)
        ensures Ranked(states, mult)[k] in states
      {
        if k != Key(states[|states| - 1], mult) {
          assert Ranked(states, mult)[k] in states[..|states| - 1];
        }
      }
    }
  }

  /** Every successor's key is stored, and it holds the last successor with that key. */
  lemma {:induction false} RankedLast(states: seq<Board>, mult: int, j: nat)
    requires j < |states|
    ensures Key(states[j], mult) in Ranked(states, mult)
    ensures (forall l :: j < l < |states| ==> Key(states[l], mult) != Key(states[j], mult))
            ==> Ranked(states, mult)[Key(states[j], mult)] == states[j]
    decreases |states|
  {
    if j < |states| - 1 {
      RankedLast(states[..|states| - 1], mult, j);
    }
  }

  /** No key is stored that no successor has. */
  lemma {:induction false} RankedKeys(states: seq<Board>, mult: int)
    ensures forall k :: k in Ranked(states, mult) <==> exists j :: 0 <= j < |states| && Key(states[j], mult) == k
  {
    RankedValues(states, mult);
    forall k | k in Ranked(states, mult)
      ensures exists j :: 0 <= j < |states| && Key(states[j], mult) == k
    {
      var j :| 0 <= j < |states| && states[j] == Ranked(states, mult)[k];
    }
    forall j | 0 <= j < |states|
      ensures Key(states[j], mult) in Ranked(states, mult)
    {
      RankedLast(states, mult, j);
    }
  }

  // ---------------------------------------------------------------------
  // Sorting the keys (lines 110-114)
  // ---------------------------------------------------------------------

  predicate Ascending(ks: seq<int>) {
    forall i, j :: 0 <= i < j < |ks| ==> ks[i] < ks[j]
  }

  /** `sort.Float64s`, here as insertion into an ascending list. */
  function Insert(sorted: seq<int>, k: int): (r: seq<int>)
    ensures |r| == |sorted| + 1 && multiset(r) == multiset(sorted) + multiset{k}
  {
    if sorted == [] || k <= sorted[0] then [k] + sorted
    else
      assert sorted == [sorted[0]] + sorted[1..];
      [sorted[0]] + Insert(sorted[1..], k)
  }

  function Sort(keys: seq<int>): (r: seq<int>)
    ensures |r| == |keys| && multiset(r) == multiset(keys)
  {
    if keys == [] then []
    else
      assert keys == keys[..|keys| - 1] + [keys[|keys| - 1]];
      Insert(Sort(keys[..|keys| - 1]), keys[|keys| - 1])
  }

  lemma {:induction false} InsertAscending(sorted: seq<int>, k: int)
    requires Ascending(sorted) && k !in sorted
    ensures Ascending(Insert(sorted, k))
    decreases |sorted|
  {
    if !(sorted == [] || k <= sorted[0]) {
      InsertAscending(sorted[1..], k);
      var r := Insert(sorted, k);
      forall j | 0 < j < |r|
        ensures sorted[0] < r[j]
      {
        assert r[j] in multiset(sorted[1..]) + multiset{k};
        if r[j] != k {
          var l :| 0 <= l < |sorted[1..]| && sorted[1..][l] == r[j];
        }
      }
    }
  }

  /** Sorting keys that are all different gives the ascending list of the same keys. */
  lemma {:induction false} SortAscending(keys: seq<int>)
    requires forall i, j :: 0 <= i < j < |keys| ==> keys[i] != keys[j]
    ensures Ascending(Sort(keys)) && (forall k :: k in Sort(keys) <==> k in keys)
    decreases |keys|
  {
    if keys != [] {
      var front := keys[..|keys| - 1];
      SortAscending(front);
      assert keys[|keys| - 1] !in multiset(Sort(front));
      InsertAscending(Sort(front), keys[|keys| - 1]);
    }
    forall k
      ensures k in Sort(keys) <==> k in keys
    {
      assert k in Sort(keys) <==> k in multiset(Sort(keys));
    }
  }

  /** The ascending list of a finite set of keys. */
  ghost function SortedKeys(ks: set<int>): (r: seq<int>)
    ensures Ascending(r) && forall k :: k in r <==> k in ks
    decreases |ks|
  {
    if ks == {} then []
    else
      LeastExists(ks);
      var m :| m in ks && forall x :: x in ks ==> m <= x;
      var rest := SortedKeys(ks - {m});
      [m] + rest
  }

  lemma {:induction false} LeastExists(ks: set<int>)
    requires ks != {}
    ensures exists m :: m in ks && forall x :: x in ks ==> m <= x
    decreases |ks|
  {
    var a := AnyOf(ks);
    if ks - {a} != {} {
      LeastExists(ks - {a});
      var m :| m in ks - {a} && forall x :: x in ks - {a} ==> m <= x;
      var least := if a < m then a else m;
      forall x | x in ks
        ensures least <= x
      {
        if x != a {
          assert x in ks - {a};
        }
      }
    } else {
      assert forall x :: x in ks ==> x == a;
    }
  }

  /** An element of a set that is not empty. */
  ghost function AnyOf(ks: set<int>): (a: int)
    requires ks != {}
    ensures a in ks
  {
    NonEmpty(ks);
    var a :| a in ks; a
  }

  lemma NonEmpty(ks: set<int>)
    requires ks != {}
    ensures exists a :: a in ks
  {
    if forall a :: a !in ks {
      assert false;
    }
  }

  /** Two ascending lists with the same keys are the same list. */
  lemma {:induction false} AscendingUnique(a: seq<int>, b: seq<int>)
    requires Ascending(a) && Ascending(b) && forall k :: k in a <==> k in b
    ensures a == b
    decreases |a|
  {
    if a != [] && b != [] {
      assert a[0] in a && b[0] in b;
      assert a[0] == b[0];
      forall k
        ensures k in a[1..] <==> k in b[1..]
      {
        if k in a[1..] {
          var i :| 0 <= i < |a[1..]| && a[1..][i] == k;
          assert a[0] < a[i + 1] && a[i + 1] in a;
          assert k in b;
          var j :| 0 <= j < |b| && b[j] == k;
          assert j != 0 && b[1..][j - 1] == k;
        }
        if k in b[1..] {
          var i :| 0 <= i < |b[1..]| && b[1..][i] == k;
          assert b[0] < b[i + 1] && b[i + 1] in b;
          assert k in a;
          var j :| 0 <= j < |a| && a[j] == k;
          assert j != 0 && a[1..][j - 1] == k;
        }
      }
      AscendingUnique(a[1..], b[1..]);
      assert a == [a[0]] + a[1..];
      assert b == [b[0]] + b[1..];
    } else if a != [] {
      HeadIn(a);
      assert false;
    } else if b != [] {
      HeadIn(b);
      assert false;
    }
  }

  lemma HeadIn(a: seq<int>)
    requires a != []
    ensures a[0] in a
  {
  }

  /** The boards in the order they are expanded: by ascending key, one per key. */
  ghost function Order(states: seq<Board>, mult: int): (r: seq<Board>)
    ensures |r| == |SortedKeys(Ranked(states, mult).Keys)|
  {
    var ranked := Ranked(states, mult);
    var keys := SortedKeys(ranked.Keys);
    seq(|keys|, i requires 0 <= i < |keys| => ranked[keys[i]])
  }

  lemma OrderAt(states: seq<Board>, mult: int, i: nat)
    requires i < |Order(states, mult)|
    ensures SortedKeys(Ranked(states, mult).Keys)[i] in Ranked(states, mult)
    ensures Order(states, mult)[i] == Ranked(states, mult)[SortedKeys(Ranked(states, mult).Keys)[i]]
  {
  }

  /** Every board expanded is one of the successors, the i-th with the i-th smallest key. */
  lemma OrderMembers(states: seq<Board>, mult: int)
    ensures forall i :: 0 <= i < |Order(states, mult)| ==>
              Order(states, mult)[i] in states && Key(Order(states, mult)[i], mult) == SortedKeys(Ranked(states, mult).Keys)[i]
  {
    RankedValues(states, mult);
    forall i | 0 <= i < |Order(states, mult)|
      ensures Order(states, mult)[i] in states && Key(Order(states, mult)[i], mult) == SortedKeys(Ranked(states, mult).Keys)[i]
    {
      OrderAt(states, mult, i);
    }
  }

  /** The boards are expanded least favourable for the mover first: keys rise strictly along the order. */
  lemma OrderAscending(states: seq<Board>, mult: int)
    ensures forall i, j :: 0 <= i < j < |Order(states, mult)| ==>
              Key(Order(states, mult)[i], mult) < Key(Order(states, mult)[j], mult)
  {
    OrderMembers(states, mult);
  }

  /** At most one board per successor is expanded, and some board is expanded whenever there is a successor. */
  lemma OrderSize(states: seq<Board>, mult: int)
    ensures |Order(states, mult)| <= |states|
    ensures Order(states, mult) == [] <==> states == []
  {
    var ks := Ranked(states, mult).Keys;
    KeyCount(states, mult);
    SortedKeysLength(ks);
    assert |Order(states, mult)| == |ks|;
    if states != [] {
      RankedLast(states, mult, 0);
      assert Key(states[0], mult) in ks;
    } else {
      assert ks == {};
    }
  }

  lemma {:induction false} KeyCount(states: seq<Board>, mult: int)
    ensures |Ranked(states, mult).Keys| <= |states|
    decreases |states|
  {
    if states != [] {
      KeyCount(states[..|states| - 1], mult);
      var front := Ranked(states[..|states| - 1], mult);
      assert Ranked(states, mult).Keys == front.Keys + {Key(states[|states| - 1], mult)};
    }
  }

  lemma SortedKeysLength(ks: set<int>)
    ensures |SortedKeys(ks)| == |ks|
  {
    var r := SortedKeys(ks);
    DistinctCard(r);
    assert (set k | k in r) == ks;
  }

  lemma {:induction false} DistinctCard(r: seq<int>)
    requires Ascending(r)
    ensures |set k | k in r| == |r|
    decreases |r|
  {
    if r != [] {
      var front := r[..|r| - 1];
      DistinctCard(front);
      assert (set k | k in r) == (set k | k in front) + {r[|r| - 1]};
      assert r[|r| - 1] !in front;
    }
  }

  /**
   * Two successors with the same key: only the later one is ever expanded,
   * so the search never looks at the earlier one (unless it is the same board).
   */
  lemma EqualKeysDropEarlier(states: seq<Board>, mult: int, i: nat, j: nat)
    requires i < j < |states| && Key(states[i], mult) == Key(states[j], mult) && states[i] != states[j]
    requires forall l :: j < l < |states| ==> Key(states[l], mult) != Key(states[j], mult)
    ensures states[i] !in Order(states, mult)
  {
    var ranked := Ranked(states, mult);
    var keys := SortedKeys(ranked.Keys);
    RankedLast(states, mult, j);
    RankedValues(states, mult);
  }

  /**
   * Lines 110-117: whatever order the map yields its keys in, sorting them and
   * reading the map back gives the expansion order.
   */
  method ExpansionOrder(states: seq<Board>, mult: int) returns (order: seq<Board>)
    ensures order == Order(states, mult)
  {
    var rankedStates := RankStates(states, mult);
    var keys := CollectKeys(rankedStates);
    SortAscending(keys);
    var sorted := Sort(keys);
    AscendingUnique(sorted, SortedKeys(rankedStates.Keys));
    order := ReadBack(rankedStates, sorted);
  }

  /** Lines 110-113: the keys of the map, in whatever order iteration yields them. */
  method CollectKeys(rankedStates: map<int, Board>) returns (keys: seq<int>)
    ensures forall k :: k in keys <==> k in rankedStates
    ensures forall i, j :: 0 <= i < j < |keys| ==> keys[i] != keys[j]
  {
    keys := [];
    var rest := rankedStates.Keys;
    while rest != {}
      invariant forall k :: k in rankedStates <==> k in rest || k in keys
      invariant forall k :: k in keys ==> k !in rest
      invariant forall i, j :: 0 <= i < j < |keys| ==> keys[i] != keys[j]
      decreases |rest|
    {
      NonEmpty(rest);
      var key :| key in rest;
      keys := keys + [key];
      rest := rest - {key};
    }
  }

  /** Lines 116-117: the board stored under each key, in key order. */
  method ReadBack(rankedStates: map<int, Board>, sorted: seq<int>) returns (order: seq<Board>)
    requires forall i :: 0 <= i < |sorted| ==> sorted[i] in rankedStates
    ensures |order| == |sorted| && forall i :: 0 <= i < |sorted| ==> order[i] == rankedStates[sorted[i]]
  {
    order := [];
    var i := 0;
    while i < |sorted|
      invariant 0 <= i <= |sorted|
      invariant |order| == i && forall l :: 0 <= l < i ==> order[l] == rankedStates[sorted[l]]
    {
      order := order + [rankedStates[sorted[i]]];
      i := i + 1;
    }
  }
}
