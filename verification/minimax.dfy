/**
 * The search tree of minimax.go: a fixed-depth minimax over the successors
 * `getPossibleMoves` lists, expanded in the order of `MoveOrdering`, where
 * each node stops expanding once its running best reaches the bound its
 * parent handed down (the parent's own running best). The leaf evaluators
 * are parameters; scores are integers with both infinities.
 */
module Minimax {
  import opened Wrappers
  import opened Utils
  import opened ChessTypes
  import opened Coverage
  import opened Boards
  import opened MoveOrdering

  // ---------------------------------------------------------------------
  // Scores
  // ---------------------------------------------------------------------

  /** A node value: `math.Inf(-1)`, a finite value, or `math.Inf(1)`. */
  datatype Score = NegInf | Fin(n: int) | PosInf

  predicate Less(a: Score, b: Score) {
    match a
    case NegInf => !b.NegInf?
    case Fin(x) => b.PosInf? || (b.Fin? && x < b.n)
    case PosInf => false
  }

  predicate AtMost(a: Score, b: Score) {
    !Less(b, a)
  }

  /** `math.Max` and `math.Min`. */
  function Max(a: Score, b: Score): Score {
    if Less(a, b) then b else a
  }

  function Min(a: Score, b: Score): Score {
    if Less(b, a) then b else a
  }

  /** The better of two scores for the side that maximises (or minimises). */
  function Best(isMax: bool, a: Score, b: Score): Score {
    if isMax then Max(a, b) else Min(a, b)
  }

  /** a is strictly better than b for that side. */
  predicate Improves(isMax: bool, a: Score, b: Score) {
    if isMax then Less(b, a) else Less(a, b)
  }

  /** b is at least as good as a for that side. */
  predicate NoWorse(isMax: bool, a: Score, b: Score) {
    !Improves(isMax, a, b)
  }

  /** The starting value of the running best (lines 73 and 77). */
  function Worst(isMax: bool): Score {
    if isMax then NegInf else PosInf
  }

  /** The bound of a node whose parent has no running best yet (lines 72 and 76). */
  function DefaultBound(isMax: bool): Score {
    if isMax then PosInf else NegInf
  }

  function Bound(isMax: bool, parentBest: Option<Score>): Score {
    if parentBest.Some? then parentBest.value else DefaultBound(isMax)
  }

  /** Lines 128-136: the running best has reached the bound. */
  predicate Prunes(isMax: bool, best: Score, bound: Score) {
    if isMax then AtMost(bound, best) else AtMost(best, bound)
  }

  lemma BestIsBest(isMax: bool, a: Score, b: Score)
    ensures Best(isMax, a, b) == a || Best(isMax, a, b) == b
    ensures NoWorse(isMax, a, Best(isMax, a, b)) && NoWorse(isMax, b, Best(isMax, a, b))
  {
  }

  lemma NoWorseTrans(isMax: bool, a: Score, b: Score, c: Score)
    requires NoWorse(isMax, a, b) && NoWorse(isMax, b, c)
    ensures NoWorse(isMax, a, c)
  {
  }

  // ---------------------------------------------------------------------
  // Trees
  // ---------------------------------------------------------------------

  datatype Strategy = Player1 | Player2 | Other(name: string)

  /**
   * What a search shares from node to node: the height, the strategy, the
   * two general evaluators (one per configuration) and the successor
   * function. The search is stated for any successor function; the methods
   * below use `Expansion`, which is `getPossibleMoves`.
   */
  datatype Search = Search(height: int, strategy: Strategy, config1: Board -> Score, config2: Board -> Score,
                           possibleMoves: Board -> Result<seq<Board>>)

  /**
   * `getPossibleMoves` on every board: a board with a piece off the grid
   * would index outside it; the search only meets boards that satisfy the
   * board invariant, and on those this is `PossibleBoards`.
   */
  function Expansion(b: Board): Result<seq<Board>> {
    if WellFormed(b) then PossibleBoards(b) else Failed(IndexOutOfRange)
  }

  /** Lines 86-93: Player1 and Player2 use their configuration's evaluator, anything else the material heuristic. */
  function LeafValue(s: Search, b: Board): Score {
    match s.strategy
    case Player1 => s.config1(b)
    case Player2 => s.config2(b)
    case Other(_) => Fin(Material(b.pieces))
  }

  /**
   * `MinimaxTree`. Pointers to boards are the boards themselves; the
   * optional fields are the pointers that may be nil.
   */
  datatype Tree = Tree(
    children: seq<Tree>,
    value: Score,
    height: int,
    depth: int,
    isMaximising: bool,
    state: Board,
    nextMove: Option<Board>,
    nextMoveIndex: int,
    worstSibling: Option<Score>,
    bestChild: Option<Score>,
    strategy: Strategy)

  function Values(ts: seq<Tree>): (vs: seq<Score>)
    ensures |vs| == |ts| && forall i :: 0 <= i < |ts| ==> vs[i] == ts[i].value
  {
    seq(|ts|, i requires 0 <= i < |ts| => ts[i].value)
  }

  /** The running best after the values vs, starting from acc. */
  function Fold(isMax: bool, acc: Score, vs: seq<Score>): Score {
    if vs == [] then acc else Best(isMax, vs[|vs| - 1], Fold(isMax, acc, vs[..|vs| - 1]))
  }

  /**
   * The position of the earliest strictly best among the first n values: a
   * later value replaces the one found so far only if strictly better.
   */
  function BestUpTo(isMax: bool, vs: seq<Score>, n: int): (k: nat)
    requires 0 < n <= |vs|
    ensures k < n
  {
    if n == 1 then 0
    else
      var k := BestUpTo(isMax, vs, n - 1);
      if Improves(isMax, vs[n - 1], vs[k]) then n - 1 else k
  }

  /** The position of the earliest strictly best value. */
  function BestIndex(isMax: bool, vs: seq<Score>): (k: nat)
    requires vs != []
    ensures k < |vs|
  {
    BestUpTo(isMax, vs, |vs|)
  }

  lemma {:induction false} BestUpToFacts(isMax: bool, vs: seq<Score>, n: int)
    requires 0 < n <= |vs|
    ensures forall j :: 0 <= j < n ==> NoWorse(isMax, vs[j], vs[BestUpTo(isMax, vs, n)])
    ensures forall j :: 0 <= j < BestUpTo(isMax, vs, n) ==> Improves(isMax, vs[BestUpTo(isMax, vs, n)], vs[j])
    ensures vs[BestUpTo(isMax, vs, n)] == Fold(isMax, Worst(isMax), vs[..n])
  {
    if n > 1 {
      BestUpToFacts(isMax, vs, n - 1);
      assert vs[..n][..n - 1] == vs[..n - 1];
    } else {
      assert vs[..1][..0] == [];
    }
  }

  /**
   * The selection picks a best value, the earliest one, and that value is
   * the running best the expansion loop ends with.
   */
  lemma BestIndexFacts(isMax: bool, vs: seq<Score>)
    requires vs != []
    ensures forall j :: 0 <= j < |vs| ==> NoWorse(isMax, vs[j], vs[BestIndex(isMax, vs)])
    ensures forall j :: 0 <= j < BestIndex(isMax, vs) ==> Improves(isMax, vs[BestIndex(isMax, vs)], vs[j])
    ensures vs[BestIndex(isMax, vs)] == Fold(isMax, Worst(isMax), vs)
  {
    BestUpToFacts(isMax, vs, |vs|);
    assert vs[..|vs|] == vs;
  }

  /** The earliest best among the first n values depends on those values only. */
  lemma {:induction false} BestUpToPrefix(isMax: bool, vs: seq<Score>, ws: seq<Score>, n: int)
    requires 0 < n <= |vs| && n <= |ws| && vs[..n] == ws[..n]
    ensures BestUpTo(isMax, vs, n) == BestUpTo(isMax, ws, n)
  {
    if n > 1 {
      assert vs[..n - 1] == vs[..n][..n - 1];
      assert ws[..n - 1] == ws[..n][..n - 1];
      assert vs[n - 1] == vs[..n][n - 1];
      assert ws[n - 1] == ws[..n][n - 1];
      BestUpToPrefix(isMax, vs, ws, n - 1);
    }
  }

  /** Folding a value in first is the same as starting from its combination with the start. */
  lemma {:induction false} FoldFront(isMax: bool, acc: Score, v: Score, rest: seq<Score>)
    ensures Fold(isMax, acc, [v] + rest) == Fold(isMax, Best(isMax, v, acc), rest)
    decreases |rest|
  {
    if rest == [] {
      assert ([v] + rest)[..0] == [];
    } else {
      FoldFront(isMax, acc, v, rest[..|rest| - 1]);
      assert ([v] + rest)[..|rest|] == [v] + rest[..|rest| - 1];
    }
  }

  // ---------------------------------------------------------------------
  // The search as written
  // ---------------------------------------------------------------------

  /** Lines 147 and 186-189: stalemate as `isStalemate` decides it, given the number of successors. */
  predicate IsStalemate(b: Board, n: nat) {
    (!b.isBlackChecked && !b.isWhiteChecked && n == 0)
    || OwnsNonKing(b.pieces, Black) || OwnsNonKing(b.pieces, White) || b.fiftyMoveCounter >= 100
  }

  /**
   * Lines 140-153, for a node that expanded nothing: black mated is -inf,
   * white mated +inf, stalemate 0; otherwise `children[0]` on the empty slice.
   */
  function Terminal(b: Board, n: nat): Result<Score> {
    if b.isBlackChecked && n == 0 then Ok(NegInf)
    else if b.isWhiteChecked && n == 0 then Ok(PosInf)
    else if IsStalemate(b, n) then Ok(Fin(0))
    else Failed(IndexOutOfRange)
  }

  /**
   * A node without successors always gets a value: once neither side is in
   * check, the first stalemate test holds, so the diagnostic of line 150 and
   * the empty index that follows it are never reached.
   */
  lemma TerminalNeverFails(b: Board)
    ensures Terminal(b, 0).Ok?
    ensures Terminal(b, 0).value == NegInf <==> b.isBlackChecked
    ensures Terminal(b, 0).value == PosInf <==> !b.isBlackChecked && b.isWhiteChecked
    ensures Terminal(b, 0).value == Fin(0) <==> !b.isBlackChecked && !b.isWhiteChecked
  {
  }

  /** What a node finds out about itself: its value, the move it chooses, that move's index and its final running best. */
  datatype Outcome = Outcome(value: Score, nextMove: Option<Board>, nextMoveIndex: int, bestChild: Option<Score>)

  /**
   * `newMinimaxTree` (lines 65-179) for a node at `depth` that maximises or
   * not, whose parent's running best is `parentBest`. The returned tree keeps
   * the empty children slice of line 98.
   */
  ghost function Node(s: Search, b: Board, depth: int, isMax: bool, parentBest: Option<Score>): Result<Tree>
    requires 1 <= depth <= s.height
    decreases s.height - depth, 2
  {
    var moves :- s.possibleMoves(b);
    var bound := Bound(isMax, parentBest);
    var o :- Evaluate(s, b, moves, depth, isMax, bound);
    Ok(Tree([], o.value, s.height, depth, isMax, b.(children := moves), o.nextMove, o.nextMoveIndex, Some(bound), o.bestChild, s.strategy))
  }

  /**
   * Lines 84-177: a node at the full height takes its evaluator's value; any
   * other node expands its ordered successors, and then either judges a
   * position where it expanded nothing or takes the earliest best child.
   */
  ghost function Evaluate(s: Search, b: Board, moves: seq<Board>, depth: int, isMax: bool, bound: Score): Result<Outcome>
    requires 1 <= depth <= s.height
    decreases s.height - depth, 1
  {
    if depth == s.height then Ok(Outcome(LeafValue(s, b.(children := moves)), None, -1, None))
    else
      var explored :- Explore(s, Order(moves, Mult(b)), depth, isMax, None, bound);
      Conclude(b, |moves|, isMax, explored)
  }

  /**
   * Lines 140-177, once the expansion is over: a node that expanded nothing is
   * judged by `Terminal`; otherwise it takes the earliest best child, records
   * its index counted in `children[1:]`, and keeps its running best.
   */
  function Conclude(b: Board, n: nat, isMax: bool, explored: seq<Tree>): Result<Outcome> {
    if explored == [] then
      var value :- Terminal(b, n);
      Ok(Outcome(value, None, -1, None))
    else
      var k := BestIndex(isMax, Values(explored));
      Ok(Outcome(explored[k].value, Some(explored[k].state), if k == 0 then 0 else k - 1,
                 Some(Fold(isMax, Worst(isMax), Values(explored)))))
  }

  /**
   * Lines 116-138: expand `queue` in order, each child bounded by the running
   * best so far (`running`, none before the first child), and stop after the
   * first child that brings the running best to the bound.
   */
  ghost function Explore(s: Search, queue: seq<Board>, depth: int, isMax: bool, running: Option<Score>, bound: Score): Result<seq<Tree>>
    requires 1 <= depth < s.height
    decreases s.height - depth, 0, |queue|
  {
    if queue == [] then Ok([])
    else
      var child :- Node(s, queue[0], depth + 1, !isMax, running);
      var best := Best(isMax, child.value, if running.Some? then running.value else Worst(isMax));
      if Prunes(isMax, best, bound) then Ok([child])
      else
        var rest :- Explore(s, queue[1..], depth, isMax, Some(best), bound);
        Ok([child] + rest)
  }

  // ---------------------------------------------------------------------
  // Plain minimax, for reference
  // ---------------------------------------------------------------------

  /** The minimax value of the same tree, over the same ordered successors, with nothing cut off. */
  ghost function Full(s: Search, b: Board, depth: int, isMax: bool): Result<Score>
    requires 1 <= depth <= s.height
    decreases s.height - depth, 1
  {
    var moves :- s.possibleMoves(b);
    if depth == s.height then Ok(LeafValue(s, b.(children := moves)))
    else if moves == [] then Terminal(b, |moves|)
    else FullOver(s, Order(moves, Mult(b)), depth, isMax, Worst(isMax))
  }

  ghost function FullOver(s: Search, queue: seq<Board>, depth: int, isMax: bool, acc: Score): Result<Score>
    requires 1 <= depth < s.height
    decreases s.height - depth, 0, |queue|
  {
    if queue == [] then Ok(acc)
    else
      var v :- Full(s, queue[0], depth + 1, !isMax);
      FullOver(s, queue[1..], depth, isMax, Best(isMax, v, acc))
  }

  /** Expanding more children never makes the running best worse. */
  lemma {:induction false} FullOverImproves(s: Search, queue: seq<Board>, depth: int, isMax: bool, acc: Score)
    requires 1 <= depth < s.height
    requires FullOver(s, queue, depth, isMax, acc).Ok?
    ensures NoWorse(isMax, acc, FullOver(s, queue, depth, isMax, acc).value)
    decreases |queue|
  {
    if queue != [] {
      var v := Full(s, queue[0], depth + 1, !isMax).value;
      var next := Best(isMax, v, acc);
      FullOverImproves(s, queue[1..], depth, isMax, next);
      BestIsBest(isMax, v, acc);
      NoWorseTrans(isMax, acc, next, FullOver(s, queue, depth, isMax, acc).value);
    }
  }

  /**
   * What a node's value tells about its true minimax value T, given its bound:
   * short of the bound it is exact; at or past the bound, T is at or past it too.
   */
  predicate Agrees(isMax: bool, v: Score, bound: Score, t: Score) {
    if isMax then (Less(v, bound) ==> v == t) && (AtMost(bound, v) ==> AtMost(bound, t))
    else (Less(bound, v) ==> v == t) && (AtMost(v, bound) ==> AtMost(t, bound))
  }

  /** A child that agrees with its true value under the parent's running best moves that running best as the true value would. */
  lemma BestAgrees(isMax: bool, v: Score, r: Score, t: Score)
    requires Agrees(!isMax, v, r, t)
    ensures Best(isMax, v, r) == Best(isMax, t, r)
  {
  }

  /**
   * Soundness of the cutoff: whenever plain minimax gets a value, the search
   * as written gets one too, and it agrees with the plain value under the
   * node's bound. A node that stops early only does so when its value can no
   * longer change its parent's choice.
   */
  lemma {:induction false} NodeSound(s: Search, b: Board, depth: int, isMax: bool, parentBest: Option<Score>)
    requires 1 <= depth <= s.height && Full(s, b, depth, isMax).Ok?
    ensures Node(s, b, depth, isMax, parentBest).Ok?
    ensures Agrees(isMax, Node(s, b, depth, isMax, parentBest).value.value, Bound(isMax, parentBest), Full(s, b, depth, isMax).value)
    decreases s.height - depth, 1
  {
    var moves := s.possibleMoves(b).value;
    if depth < s.height {
      var order := Order(moves, Mult(b));
      var bound := Bound(isMax, parentBest);
      OrderSize(moves, Mult(b));
      ExploreSound(s, order, depth, isMax, None, bound);
      if moves != [] {
        var explored := Explore(s, order, depth, isMax, None, bound).value;
        BestIndexFacts(isMax, Values(explored));
      }
    }
  }

  lemma {:induction false} ExploreSound(s: Search, queue: seq<Board>, depth: int, isMax: bool, running: Option<Score>, bound: Score)
    requires 1 <= depth < s.height
    requires FullOver(s, queue, depth, isMax, if running.Some? then running.value else Worst(isMax)).Ok?
    ensures Explore(s, queue, depth, isMax, running, bound).Ok?
    ensures queue != [] ==> Explore(s, queue, depth, isMax, running, bound).value != []
    ensures Agrees(isMax,
                   Fold(isMax, if running.Some? then running.value else Worst(isMax), Values(Explore(s, queue, depth, isMax, running, bound).value)),
                   bound,
                   FullOver(s, queue, depth, isMax, if running.Some? then running.value else Worst(isMax)).value)
    decreases s.height - depth, 0, |queue|
  {
    var r := if running.Some? then running.value else Worst(isMax);
    if queue == [] {
      assert Values([]) == [];
    } else {
      NodeSound(s, queue[0], depth + 1, !isMax, running);
      var child := Node(s, queue[0], depth + 1, !isMax, running).value;
      var t := Full(s, queue[0], depth + 1, !isMax).value;
      assert Bound(!isMax, running) == r;
      BestAgrees(isMax, child.value, r, t);
      var best := Best(isMax, child.value, r);
      assert FullOver(s, queue, depth, isMax, r) == FullOver(s, queue[1..], depth, isMax, best);
      var total := FullOver(s, queue[1..], depth, isMax, best).value;
      if Prunes(isMax, best, bound) {
        assert Explore(s, queue, depth, isMax, running, bound) == Ok([child]);
        FullOverImproves(s, queue[1..], depth, isMax, best);
        SoundPrune(isMax, child, r, bound, total);
      } else {
        ExploreSound(s, queue[1..], depth, isMax, Some(best), bound);
        var rest := Explore(s, queue[1..], depth, isMax, Some(best), bound).value;
        assert Explore(s, queue, depth, isMax, running, bound) == Ok([child] + rest);
        SoundContinue(isMax, child, rest, r, bound, total);
      }
    }
  }

  /** The step of `ExploreSound` where the first child reaches the bound. */
  lemma SoundPrune(isMax: bool, child: Tree, r: Score, bound: Score, total: Score)
    requires Prunes(isMax, Best(isMax, child.value, r), bound)
    requires NoWorse(isMax, Best(isMax, child.value, r), total)
    ensures Agrees(isMax, Fold(isMax, r, Values([child])), bound, total)
  {
    assert Values([child]) == [child.value] + [];
    FoldFront(isMax, r, child.value, []);
  }

  /** The step of `ExploreSound` where the first child stays short of the bound and the rest is expanded. */
  lemma SoundContinue(isMax: bool, child: Tree, rest: seq<Tree>, r: Score, bound: Score, total: Score)
    requires Agrees(isMax, Fold(isMax, Best(isMax, child.value, r), Values(rest)), bound, total)
    ensures Agrees(isMax, Fold(isMax, r, Values([child] + rest)), bound, total)
  {
    assert Values([child] + rest) == [child.value] + Values(rest);
    FoldFront(isMax, r, child.value, Values(rest));
  }

  // ---------------------------------------------------------------------
  // The shape of a node
  // ---------------------------------------------------------------------

  /**
   * Every node keeps the search's height and strategy, sits at its own depth
   * with its own side, records its bound, and returns an empty children slice.
   * A node at the full height takes its evaluator's value and chooses no move.
   */
  lemma NodeShape(s: Search, b: Board, depth: int, isMax: bool, parentBest: Option<Score>)
    requires 1 <= depth <= s.height && Node(s, b, depth, isMax, parentBest).Ok?
    ensures var t := Node(s, b, depth, isMax, parentBest).value;
            && t.children == [] && t.height == s.height && t.depth == depth && t.isMaximising == isMax
            && t.strategy == s.strategy && t.worstSibling == Some(Bound(isMax, parentBest))
  {
  }

  /** A node's state is its board with the successors it computed stored as children. */
  lemma NodeState(s: Search, b: Board, depth: int, isMax: bool, parentBest: Option<Score>)
    requires 1 <= depth <= s.height && Node(s, b, depth, isMax, parentBest).Ok?
    ensures s.possibleMoves(b).Ok?
    ensures Node(s, b, depth, isMax, parentBest).value.state == b.(children := s.possibleMoves(b).value)
  {
  }

  /** Lines 84-96: a node at the full height takes its evaluator's value of its state and chooses no move. */
  lemma LeafNode(s: Search, b: Board, depth: int, isMax: bool, parentBest: Option<Score>)
    requires 1 <= depth == s.height && Node(s, b, depth, isMax, parentBest).Ok?
    ensures var t := Node(s, b, depth, isMax, parentBest).value;
            t.value == LeafValue(s, t.state) && t.nextMove == None && t.bestChild == None && t.nextMoveIndex == -1
  {
  }

  /** The running best after each value in turn, starting from acc. */
  function Runs(isMax: bool, acc: Score, vs: seq<Score>): (rs: seq<Score>)
    ensures |rs| == |vs|
    decreases |vs|
  {
    if vs == [] then [] else [Best(isMax, vs[0], acc)] + Runs(isMax, Best(isMax, vs[0], acc), vs[1..])
  }

  /**
   * The cutoff: every expanded child but the last left the running best short
   * of the bound, and when children were left unexpanded the last one brought
   * it to the bound.
   */
  lemma {:induction false} ExploreCutoff(s: Search, queue: seq<Board>, depth: int, isMax: bool, running: Option<Score>, bound: Score)
    requires 1 <= depth < s.height && Explore(s, queue, depth, isMax, running, bound).Ok?
    ensures var ex := Explore(s, queue, depth, isMax, running, bound).value;
            var rs := Runs(isMax, if running.Some? then running.value else Worst(isMax), Values(ex));
            && |ex| <= |queue| && (queue != [] ==> ex != [])
            && (forall j :: 0 <= j < |ex| - 1 ==> !Prunes(isMax, rs[j], bound))
            && (|ex| < |queue| ==> Prunes(isMax, rs[|ex| - 1], bound))
    decreases |queue|
  {
    if queue != [] {
      var r := if running.Some? then running.value else Worst(isMax);
      var ex := Explore(s, queue, depth, isMax, running, bound).value;
      var child := Node(s, queue[0], depth + 1, !isMax, running).value;
      var best := Best(isMax, child.value, r);
      assert Values(ex)[0] == child.value;
      if !Prunes(isMax, best, bound) {
        ExploreCutoff(s, queue[1..], depth, isMax, Some(best), bound);
        var rest := Explore(s, queue[1..], depth, isMax, Some(best), bound).value;
        assert ex == [child] + rest;
        assert Values(ex)[1..] == Values(rest);
        var rs := Runs(isMax, r, Values(ex));
        assert rs == [best] + Runs(isMax, best, Values(rest));
        forall j | 0 <= j < |ex| - 1
          ensures !Prunes(isMax, rs[j], bound)
        {
          if j > 0 {
            assert rs[j] == Runs(isMax, best, Values(rest))[j - 1];
          }
        }
      }
    }
  }

  /**
   * Depth rises by one and the side alternates from a node to its children,
   * and each child is bounded by its parent's running best before it.
   */
  lemma {:induction false} ExploreShape(s: Search, queue: seq<Board>, depth: int, isMax: bool, running: Option<Score>, bound: Score)
    requires 1 <= depth < s.height && Explore(s, queue, depth, isMax, running, bound).Ok?
    ensures var ex := Explore(s, queue, depth, isMax, running, bound).value;
            var r := if running.Some? then running.value else Worst(isMax);
            var rs := Runs(isMax, r, Values(ex));
            forall j :: 0 <= j < |ex| ==>
              && ex[j].depth == depth + 1 && ex[j].isMaximising == !isMax && ex[j].height == s.height
              && ex[j].worstSibling == Some(if j == 0 then r else rs[j - 1])
    decreases |queue|
  {
    if queue != [] {
      var r := if running.Some? then running.value else Worst(isMax);
      var ex := Explore(s, queue, depth, isMax, running, bound).value;
      var child := Node(s, queue[0], depth + 1, !isMax, running).value;
      NodeShape(s, queue[0], depth + 1, !isMax, running);
      var best := Best(isMax, child.value, r);
      if !Prunes(isMax, best, bound) {
        ExploreShape(s, queue[1..], depth, isMax, Some(best), bound);
        var rest := Explore(s, queue[1..], depth, isMax, Some(best), bound).value;
        assert ex == [child] + rest;
        RunsStep(isMax, r, child, rest);
      } else {
        assert ex == [child];
      }
    }
  }

  /** The running bests after a first child and then the rest. */
  lemma RunsStep(isMax: bool, r: Score, child: Tree, rest: seq<Tree>)
    ensures Runs(isMax, r, Values([child] + rest)) == [Best(isMax, child.value, r)] + Runs(isMax, Best(isMax, child.value, r), Values(rest))
  {
    var vs := Values([child] + rest);
    assert vs[0] == child.value && vs[1..] == Values(rest);
  }

  /** The last running best is the fold of all the values. */
  lemma {:induction false} RunsEndInFold(isMax: bool, acc: Score, vs: seq<Score>)
    requires vs != []
    ensures Runs(isMax, acc, vs)[|vs| - 1] == Fold(isMax, acc, vs)
    decreases |vs|
  {
    FoldFront(isMax, acc, vs[0], vs[1..]);
    assert vs == [vs[0]] + vs[1..];
    if |vs| > 1 {
      RunsEndInFold(isMax, Best(isMax, vs[0], acc), vs[1..]);
    } else {
      assert vs[1..] == [];
    }
  }

  // ---------------------------------------------------------------------
  // The root
  // ---------------------------------------------------------------------

  /** The values of the results in order, or the first failure among them. */
  function Gather(rs: seq<Result<Tree>>): Result<seq<Tree>> {
    if rs == [] then Ok([])
    else
      var front :- Gather(rs[..|rs| - 1]);
      var last :- rs[|rs| - 1];
      Ok(front + [last])
  }

  /** Lines 53-60: every listed successor becomes a depth-1 node with no bound from the root. */
  ghost function DepthOne(s: Search, states: seq<Board>, isMax: bool): (rs: seq<Result<Tree>>)
    requires 1 <= s.height
    ensures |rs| == |states|
  {
    seq(|states|, i requires 0 <= i < |states| => Node(s, states[i], 1, !isMax, None))
  }

  /** The root's children: the depth-1 nodes in order, unless one of them fails. */
  ghost function RootChildren(s: Search, states: seq<Board>, isMax: bool): Result<seq<Tree>>
    requires 1 <= s.height
  {
    Gather(DepthOne(s, states, isMax))
  }

  /**
   * `createRoot` (lines 32-63): the root maximises iff White is to play, keeps
   * all its children, and moves to the earliest child with the best value, or
   * stays on its own state when it has no children.
   */
  ghost function Root(s: Search, colour: Colour, state: Board): Result<Tree>
    requires 1 <= s.height
  {
    var isMax := colour == White;
    var children :- RootChildren(s, state.children, isMax);
    var next := if children == [] then state else children[BestIndex(isMax, Values(children))].state;
    Ok(Tree(children, Fin(0), s.height, 0, isMax, state, Some(next), 0, None, None, s.strategy))
  }

  /** A depth-1 node gets exactly its plain minimax value, because the root never hands down a bound. */
  lemma RootChildExact(s: Search, c: Board, isMax: bool)
    requires 1 <= s.height && Full(s, c, 1, !isMax).Ok?
    ensures Node(s, c, 1, !isMax, None).Ok?
    ensures Node(s, c, 1, !isMax, None).value.value == Full(s, c, 1, !isMax).value
  {
    NodeSound(s, c, 1, !isMax, None);
  }

  /** When every result succeeds, gathering them yields exactly their values. */
  lemma {:induction false} GatherAll(rs: seq<Result<Tree>>)
    requires forall i :: 0 <= i < |rs| ==> rs[i].Ok?
    ensures Gather(rs).Ok? && |Gather(rs).value| == |rs|
    ensures forall i :: 0 <= i < |rs| ==> Gather(rs).value[i] == rs[i].value
  {
    if rs != [] {
      var front := rs[..|rs| - 1];
      GatherAll(front);
      assert Gather(rs).value == Gather(front).value + [rs[|rs| - 1].value];
    }
  }

  lemma RootChildrenExact(s: Search, states: seq<Board>, isMax: bool)
    requires 1 <= s.height
    requires forall i :: 0 <= i < |states| ==> Full(s, states[i], 1, !isMax).Ok?
    ensures RootChildren(s, states, isMax).Ok?
    ensures |RootChildren(s, states, isMax).value| == |states|
    ensures forall i :: 0 <= i < |states| ==> RootChildren(s, states, isMax).value[i].value == Full(s, states[i], 1, !isMax).value
  {
    forall i | 0 <= i < |states|
      ensures Node(s, states[i], 1, !isMax, None).Ok?
      ensures Node(s, states[i], 1, !isMax, None).value.value == Full(s, states[i], 1, !isMax).value
    {
      RootChildExact(s, states[i], isMax);
    }
    GatherAll(DepthOne(s, states, isMax));
  }

  /**
   * The root's choice is sound: every depth-1 node carries its plain minimax
   * value, and the move chosen is a child whose plain value no other child
   * beats (or the root's own state when it has no children).
   */
  lemma RootChoosesBest(s: Search, colour: Colour, state: Board)
    requires 1 <= s.height
    requires forall i :: 0 <= i < |state.children| ==> Full(s, state.children[i], 1, colour != White).Ok?
    ensures Root(s, colour, state).Ok?
    ensures var t := Root(s, colour, state).value;
            && |t.children| == |state.children|
            && (forall i :: 0 <= i < |t.children| ==> t.children[i].value == Full(s, state.children[i], 1, colour != White).value)
            && (state.children == [] ==> t.nextMove == Some(state))
            && (state.children != [] ==>
                  exists k :: 0 <= k < |t.children| && t.nextMove == Some(t.children[k].state)
                    && forall j :: 0 <= j < |t.children| ==> NoWorse(colour == White, t.children[j].value, t.children[k].value))
  {
    var isMax := colour == White;
    assert !isMax == (colour != White);
    RootChildrenExact(s, state.children, isMax);
    var children := RootChildren(s, state.children, isMax).value;
    if children != [] {
      BestIndexFacts(isMax, Values(children));
      var k := BestIndex(isMax, Values(children));
      assert Root(s, colour, state).value.nextMove == Some(children[k].state);
    }
  }

  // ---------------------------------------------------------------------
  // The methods
  // ---------------------------------------------------------------------

  /**
   * The search `createRoot` starts: the given height, strategy and
   * evaluators, with `getPossibleMoves` as the successor function.
   */
  function Searching(height: int, strategy: Strategy, config1: Board -> Score, config2: Board -> Score): (s: Search)
    ensures s.height == height && s.strategy == strategy && s.possibleMoves == Expansion
  {
    Search(height, strategy, config1, config2, Expansion)
  }

  /** The children expanded so far, followed by those the rest of the expansion yields. */
  function Prepend(done: seq<Tree>, rest: Result<seq<Tree>>): Result<seq<Tree>> {
    if rest.Ok? then Ok(done + rest.value) else rest
  }

  /**
   * `newMinimaxTree` (lines 65-179): the node for `boardState` below `parent`,
   * which gives it its depth, its side, its bound (the parent's running best),
   * the height and the strategy; `s` carries the evaluators and the successor
   * function.
   */
  method NewMinimaxTree(boardState: Board, parent: Tree, s: Search) returns (r: Result<Tree>)
    requires 0 <= parent.depth < parent.height == s.height && parent.strategy == s.strategy
    ensures r == Node(s, boardState, parent.depth + 1, !parent.isMaximising, parent.bestChild)
    decreases parent.height - parent.depth, 0
  {
    var moves :- s.possibleMoves(boardState);
    var state := boardState.(children := moves);
    var depth := parent.depth + 1;
    var isMaximising := !parent.isMaximising;
    var worstSibling := PosInf;
    if !isMaximising {
      worstSibling := NegInf;
    }
    if parent.bestChild.Some? {
      worstSibling := parent.bestChild.value;
    }

    if depth == parent.height {
      var value;
      match parent.strategy {
        case Player1 => value := s.config1(state);
        case Player2 => value := s.config2(state);
        case Other(_) =>
          var total := VerySimpleHeuristic(state);
          value := Fin(total);
      }
      return Ok(Tree([], value, parent.height, depth, isMaximising, state, None, -1, Some(worstSibling), None, parent.strategy));
    }

    var tree := Tree([], Fin(0), parent.height, depth, isMaximising, state, None, -1, Some(worstSibling), None, parent.strategy);
    var order := ExpansionOrder(moves, Mult(boardState));
    var children, bestChild := Expand(order, tree, s);
    var explored :- children;
    var outcome :- ConcludeNode(boardState, |moves|, isMaximising, explored, bestChild);
    tree := tree.(value := outcome.value, nextMove := outcome.nextMove, nextMoveIndex := outcome.nextMoveIndex,
                  bestChild := outcome.bestChild);
    return Ok(tree);
  }

  /** Lines 140-177: judge a node that expanded nothing, or select its best child. */
  method ConcludeNode(boardState: Board, n: nat, isMax: bool, explored: seq<Tree>, bestChild: Score) returns (r: Result<Outcome>)
    requires explored != [] ==> bestChild == Fold(isMax, Worst(isMax), Values(explored))
    ensures r == Conclude(boardState, n, isMax, explored)
  {
    if |explored| == 0 {
      // The three tests count the successors again; they are the same ones.
      var value :- JudgeTerminal(boardState, n);
      return Ok(Outcome(value, None, -1, None));
    }
    var bestValue, bestMove, nextMoveIndex := SelectBest(explored, isMax);
    return Ok(Outcome(bestValue, Some(bestMove), nextMoveIndex, Some(bestChild)));
  }

  /**
   * Lines 116-138: expand the boards of `order` under `tree`, each child seeing
   * the running best so far through `tree.bestChild`, and stop after the
   * first child that brings the running best to the tree's bound.
   */
  method Expand(order: seq<Board>, tree: Tree, s: Search) returns (children: Result<seq<Tree>>, bestChild: Score)
    requires 1 <= tree.depth < tree.height == s.height && tree.strategy == s.strategy
    requires tree.bestChild.None? && tree.worstSibling.Some?
    ensures children == Explore(s, order, tree.depth, tree.isMaximising, None, tree.worstSibling.value)
    ensures children.Ok? ==> bestChild == Fold(tree.isMaximising, Worst(tree.isMaximising), Values(children.value))
    decreases tree.height - tree.depth, 1
  {
    var isMaximising := tree.isMaximising;
    var worstSibling := tree.worstSibling.value;
    var running: Option<Score> := None;
    bestChild := Worst(isMaximising);
    var expanded: seq<Tree> := [];
    var i := 0;
    ExpandingStart(s, order, tree.depth, isMaximising, worstSibling);
    while i < |order|
      invariant 0 <= i <= |order|
      invariant Expanding(s, order, tree.depth, isMaximising, worstSibling, i, expanded, running, bestChild)
      decreases |order| - i
    {
      var result := NewMinimaxTree(order[i], tree.(bestChild := running), s);
      if result.Failed? {
        ExpandingFails(s, order, tree.depth, isMaximising, worstSibling, i, expanded, running, bestChild);
        return Failed(result.panic), bestChild;
      }
      var child := result.value;
      ExpandingStep(s, order, tree.depth, isMaximising, worstSibling, i, expanded, running, bestChild, child);
      // `math.Max` when maximising, `math.Min` otherwise
      bestChild := Best(isMaximising, child.value, bestChild);
      running := Some(bestChild);
      expanded := expanded + [child];
      // `bestChild >= worstSibling` when maximising, `bestChild <= worstSibling` otherwise
      if Prunes(isMaximising, bestChild, worstSibling) {
        // the `break`: nothing follows the loop in this method
        return Ok(expanded), bestChild;
      }
      i := i + 1;
    }
    ExpandingEnd(s, order, tree.depth, isMaximising, worstSibling, expanded, running, bestChild);
    return Ok(expanded), bestChild;
  }

  /**
   * The account the loop of `Expand` keeps after `i` children: the running
   * best folds the values expanded so far, the tree's `bestChild` points to it
   * once there is one, and the whole expansion is what was expanded followed
   * by the expansion of the rest from there.
   */
  ghost predicate Expanding(s: Search, order: seq<Board>, depth: int, isMax: bool, bound: Score,
                            i: int, expanded: seq<Tree>, running: Option<Score>, best: Score)
    requires 1 <= depth < s.height && 0 <= i <= |order|
  {
    && best == Fold(isMax, Worst(isMax), Values(expanded))
    && running == (if expanded == [] then None else Some(best))
    && Explore(s, order, depth, isMax, None, bound) == Prepend(expanded, Explore(s, order[i..], depth, isMax, running, bound))
  }

  lemma ExpandingStart(s: Search, order: seq<Board>, depth: int, isMax: bool, bound: Score)
    requires 1 <= depth < s.height
    ensures Expanding(s, order, depth, isMax, bound, 0, [], None, Worst(isMax))
  {
    assert order[0..] == order;
    PrependEmpty([], Explore(s, order, depth, isMax, None, bound));
  }

  lemma ExpandingEnd(s: Search, order: seq<Board>, depth: int, isMax: bool, bound: Score,
                     expanded: seq<Tree>, running: Option<Score>, best: Score)
    requires 1 <= depth < s.height && Expanding(s, order, depth, isMax, bound, |order|, expanded, running, best)
    ensures Explore(s, order, depth, isMax, None, bound) == Ok(expanded)
  {
    PrependEmpty(expanded, Ok([]));
  }

  lemma ExpandingFails(s: Search, order: seq<Board>, depth: int, isMax: bool, bound: Score,
                       i: int, expanded: seq<Tree>, running: Option<Score>, best: Score)
    requires 1 <= depth < s.height && 0 <= i < |order|
    requires Expanding(s, order, depth, isMax, bound, i, expanded, running, best)
    requires Node(s, order[i], depth + 1, !isMax, running).Failed?
    ensures Explore(s, order, depth, isMax, None, bound) == Failed(Node(s, order[i], depth + 1, !isMax, running).panic)
  {
    ExploreFails(s, order[i..], depth, isMax, running, bound);
  }

  /** One more child either ends the expansion, when it reaches the bound, or keeps the account. */
  lemma ExpandingStep(s: Search, order: seq<Board>, depth: int, isMax: bool, bound: Score,
                      i: int, expanded: seq<Tree>, running: Option<Score>, best: Score, child: Tree)
    requires 1 <= depth < s.height && 0 <= i < |order|
    requires Expanding(s, order, depth, isMax, bound, i, expanded, running, best)
    requires Node(s, order[i], depth + 1, !isMax, running) == Ok(child)
    ensures var next := Best(isMax, child.value, best);
            && next == Fold(isMax, Worst(isMax), Values(expanded + [child]))
            && (Prunes(isMax, next, bound) ==> Explore(s, order, depth, isMax, None, bound) == Ok(expanded + [child]))
            && (!Prunes(isMax, next, bound) ==> Expanding(s, order, depth, isMax, bound, i + 1, expanded + [child], Some(next), next))
  {
    assert best == if running.Some? then running.value else Worst(isMax) by {
      if expanded == [] {
        assert Values(expanded) == [];
      }
    }
    var next := Best(isMax, child.value, best);
    ExpandOne(s, order, i, depth, isMax, bound, expanded, running, child, next);
    FoldStep(isMax, expanded, child);
  }

  /** A first child that fails makes the expansion fail. */
  lemma ExploreFails(s: Search, queue: seq<Board>, depth: int, isMax: bool, running: Option<Score>, bound: Score)
    requires 1 <= depth < s.height && queue != [] && Node(s, queue[0], depth + 1, !isMax, running).Failed?
    ensures Explore(s, queue, depth, isMax, running, bound) == Failed(Node(s, queue[0], depth + 1, !isMax, running).panic)
  {
  }

  /** A first child that succeeds either stops the expansion or is followed by the rest. */
  lemma ExploreStep(s: Search, queue: seq<Board>, depth: int, isMax: bool, running: Option<Score>, bound: Score,
                    child: Tree, best: Score)
    requires 1 <= depth < s.height && queue != [] && Node(s, queue[0], depth + 1, !isMax, running) == Ok(child)
    requires best == Best(isMax, child.value, if running.Some? then running.value else Worst(isMax))
    ensures Explore(s, queue, depth, isMax, running, bound)
            == if Prunes(isMax, best, bound) then Ok([child])
               else Prepend([child], Explore(s, queue[1..], depth, isMax, Some(best), bound))
  {
  }

  /** The loop of `Expand` keeps its account of the expansion after each child. */
  lemma ExpandOne(s: Search, order: seq<Board>, i: int, depth: int, isMax: bool, bound: Score,
                  expanded: seq<Tree>, running: Option<Score>, child: Tree, best: Score)
    requires 1 <= depth < s.height && 0 <= i < |order|
    requires Explore(s, order, depth, isMax, None, bound) == Prepend(expanded, Explore(s, order[i..], depth, isMax, running, bound))
    requires Node(s, order[i], depth + 1, !isMax, running) == Ok(child)
    requires best == Best(isMax, child.value, if running.Some? then running.value else Worst(isMax))
    ensures Prunes(isMax, best, bound) ==> Explore(s, order, depth, isMax, None, bound) == Ok(expanded + [child])
    ensures !Prunes(isMax, best, bound) ==>
              Explore(s, order, depth, isMax, None, bound)
              == Prepend(expanded + [child], Explore(s, order[i + 1..], depth, isMax, Some(best), bound))
  {
    ExploreStep(s, order[i..], depth, isMax, running, bound, child, best);
    assert order[i..][1..] == order[i + 1..];
    PrependTwice(expanded, [child], Explore(s, order[i + 1..], depth, isMax, Some(best), bound));
  }

  /** The running best after one more child. */
  lemma FoldStep(isMax: bool, done: seq<Tree>, child: Tree)
    ensures Fold(isMax, Worst(isMax), Values(done + [child])) == Best(isMax, child.value, Fold(isMax, Worst(isMax), Values(done)))
  {
    assert Values(done + [child])[..|done|] == Values(done);
  }

  /** Prepending nothing changes nothing, and nothing left means what was expanded. */
  lemma PrependEmpty(done: seq<Tree>, rest: Result<seq<Tree>>)
    ensures Prepend([], rest) == rest
    ensures Prepend(done, Ok([])) == Ok(done)
  {
    if rest.Ok? {
      assert [] + rest.value == rest.value;
    }
    assert done + [] == done;
  }

  /** Prepending in two steps is prepending both at once. */
  lemma PrependTwice(a: seq<Tree>, b: seq<Tree>, rest: Result<seq<Tree>>)
    ensures Prepend(a, Prepend(b, rest)) == Prepend(a + b, rest)
  {
    if rest.Ok? {
      assert a + (b + rest.value) == (a + b) + rest.value;
    }
  }

  /**
   * Lines 140-153 for a node that expanded nothing: black mated, white mated,
   * stalemate, or the diagnostic followed by `children[0]` on the empty slice.
   */
  method JudgeTerminal(boardState: Board, n: nat) returns (r: Result<Score>)
    ensures r == Terminal(boardState, n)
  {
    if boardState.isBlackChecked && n == 0 {
      return Ok(NegInf);
    }
    if boardState.isWhiteChecked && n == 0 {
      return Ok(PosInf);
    }
    var blackSufficient := CheckSufficientMaterial(boardState, Black);
    var whiteSufficient := CheckSufficientMaterial(boardState, White);
    if (!boardState.isBlackChecked && !boardState.isWhiteChecked && n == 0)
       || blackSufficient || whiteSufficient || boardState.fiftyMoveCounter >= 100 {
      return Ok(Fin(0));
    }
    return Failed(IndexOutOfRange);
  }

  /**
   * Lines 153-174: the first child with a value no other child beats, its
   * value being the running best the expansion ended with, and the index the
   * loops record for it, counted in `children[1:]`. The pointer `bestMove` is
   * kept as the position of the child it points into.
   */
  method SelectBest(children: seq<Tree>, isMax: bool) returns (bestValue: Score, bestMove: Board, nextMoveIndex: int)
    requires children != []
    ensures var k := BestIndex(isMax, Values(children));
            && bestValue == children[k].value && bestMove == children[k].state
            && nextMoveIndex == (if k == 0 then 0 else k - 1)
    ensures forall j :: 0 <= j < |children| ==> NoWorse(isMax, children[j].value, bestValue)
    ensures bestValue == Fold(isMax, Worst(isMax), Values(children))
  {
    ghost var vs := Values(children);
    bestValue := children[0].value;
    var best := 0;
    nextMoveIndex := 0;
    var i := 0;
    while i < |children| - 1
      invariant 0 <= i <= |children| - 1
      invariant best == BestUpTo(isMax, vs, i + 1)
      invariant bestValue == children[best].value
      invariant nextMoveIndex == if best == 0 then 0 else best - 1
    {
      var child := children[i + 1];
      assert vs[i + 1] == child.value && vs[best] == bestValue;
      // `child.value > bestValue` when maximising, `child.value < bestValue` otherwise
      if Improves(isMax, child.value, bestValue) {
        bestValue := child.value;
        best := i + 1;
        nextMoveIndex := i;
      }
      i := i + 1;
    }
    BestChildFacts(isMax, children);
    bestMove := children[best].state;
  }

  /** The facts of `BestIndexFacts`, read on the children rather than on their values. */
  lemma BestChildFacts(isMax: bool, children: seq<Tree>)
    requires children != []
    ensures var k := BestIndex(isMax, Values(children));
            && (forall j :: 0 <= j < |children| ==> NoWorse(isMax, children[j].value, children[k].value))
            && children[k].value == Fold(isMax, Worst(isMax), Values(children))
  {
    BestIndexFacts(isMax, Values(children));
  }

  /** Gathering one more result that succeeds appends its value. */
  lemma GatherStep(rs: seq<Result<Tree>>, i: int, front: seq<Tree>, child: Tree)
    requires 0 <= i < |rs| && Gather(rs[..i]) == Ok(front) && rs[i] == Ok(child)
    ensures Gather(rs[..i + 1]) == Ok(front + [child])
  {
    assert rs[..i + 1][..i] == rs[..i];
  }

  /** The root built from its complete list of children. */
  lemma RootOf(s: Search, colour: Colour, state: Board, children: seq<Tree>)
    requires 1 <= s.height && RootChildren(s, state.children, colour == White) == Ok(children)
    ensures Root(s, colour, state)
            == Ok(Tree(children, Fin(0), s.height, 0, colour == White, state,
                       Some(if children == [] then state else children[BestIndex(colour == White, Values(children))].state),
                       0, None, None, s.strategy))
  {
  }

  /**
   * `current` is the position of the earliest strictly best of `children`
   * and `moveValue` its value, or -1 when there are no children yet.
   */
  predicate Tracks(isMax: bool, children: seq<Tree>, current: int, moveValue: Score) {
    if children == [] then current == -1
    else current == BestIndex(isMax, Values(children)) && moveValue == children[current].value
  }

  /** The update of lines 50-59 keeps `Tracks`. */
  lemma TracksStep(isMax: bool, children: seq<Tree>, current: int, moveValue: Score, child: Tree)
    requires Tracks(isMax, children, current, moveValue)
    ensures var better := children == [] || Improves(isMax, child.value, moveValue);
            Tracks(isMax, children + [child], if better then |children| else current, if better then child.value else moveValue)
  {
    BestIndexAppend(isMax, children, child);
  }

  /** Appending a child moves the earliest best to it exactly when it is strictly better. */
  lemma BestIndexAppend(isMax: bool, ts: seq<Tree>, child: Tree)
    ensures ts != [] ==>
              BestIndex(isMax, Values(ts + [child]))
              == if Improves(isMax, child.value, ts[BestIndex(isMax, Values(ts))].value) then |ts| else BestIndex(isMax, Values(ts))
  {
    if ts != [] {
      var vs := Values(ts + [child]);
      assert vs[..|ts|] == Values(ts)[..|ts|];
      BestUpToPrefix(isMax, vs, Values(ts), |ts|);
    }
  }

  /** A result that fails after a prefix that succeeds makes the whole gathering fail as it does. */
  lemma GatherFail(rs: seq<Result<Tree>>, i: nat, front: seq<Tree>)
    requires i < |rs| && Gather(rs[..i]) == Ok(front) && rs[i].Failed?
    ensures Gather(rs) == Failed(rs[i].panic)
  {
    assert rs[..i + 1][..i] == rs[..i];
    GatherFailed(rs, i);
  }

  /** Once a prefix fails, gathering the whole fails the same way. */
  lemma {:induction false} GatherFailed(rs: seq<Result<Tree>>, i: nat)
    requires i < |rs| && Gather(rs[..i + 1]).Failed?
    ensures Gather(rs) == Gather(rs[..i + 1])
  {
    if |rs| == i + 1 {
      assert rs[..i + 1] == rs;
    } else {
      var front := rs[..|rs| - 1];
      assert front[..i + 1] == rs[..i + 1];
      GatherFailed(front, i);
    }
  }

  /**
   * Lines 32-63: `createRoot` for any search. The root maximises iff White is
   * to play and has no value of its own; the pointer `currentMove` is kept as
   * the position of the child it points into, -1 standing for the root's own
   * state.
   */
  method GrowRoot(s: Search, colour: Colour, state: Board) returns (r: Result<Tree>)
    requires 1 <= s.height
    ensures r == Root(s, colour, state)
  {
    var isMax := colour == White;
    var root := Tree([], Fin(0), s.height, 0, isMax, state, None, 0, None, None, s.strategy);
    var grown, current := GrowChildren(s, root);
    if grown.Failed? {
      return Failed(grown.panic);
    }
    var children := grown.value;
    var currentMove := if current < 0 then state else children[current].state;
    root := root.(children := children, nextMove := Some(currentMove));
    RootOf(s, colour, state, children);
    return Ok(root);
  }

  /**
   * Lines 36-60: the loop over the root's children. Every child is a depth-1
   * node with no bound from the root, and `current` ends on the earliest
   * child no other beats, or on -1 when there is none.
   */
  method GrowChildren(s: Search, root: Tree) returns (children: Result<seq<Tree>>, current: int)
    requires 1 <= s.height == root.height && root.depth == 0 && root.bestChild.None? && root.strategy == s.strategy
    ensures children == RootChildren(s, root.state.children, root.isMaximising)
    ensures children.Ok? && children.value == [] ==> current == -1
    ensures children.Ok? && children.value != [] ==> current == BestIndex(root.isMaximising, Values(children.value))
  {
    var states := root.state.children;
    var isMax := root.isMaximising;
    var grown: seq<Tree> := [];
    var moveValue := Fin(0);
    current := -1;
    ghost var nodes := DepthOne(s, states, isMax);
    var i := 0;
    while i < |states|
      invariant 0 <= i <= |states|
      invariant Gather(nodes[..i]) == Ok(grown)
      invariant |grown| == i
      invariant Tracks(isMax, grown, current, moveValue)
    {
      var result := NewMinimaxTree(states[i], root, s);
      if result.Failed? {
        GatherFail(nodes, i, grown);
        return Failed(result.panic), current;
      }
      var child := result.value;
      GatherStep(nodes, i, grown, child);
      TracksStep(isMax, grown, current, moveValue, child);
      grown := grown + [child];
      // `child.value > moveValue` when maximising, `child.value < moveValue` otherwise
      if i == 0 || Improves(isMax, child.value, moveValue) {
        moveValue := child.value;
        current := i;
      }
      i := i + 1;
    }
    assert nodes[..i] == nodes;
    return Ok(grown), current;
  }

  /** `createRoot` (lines 32-63), with the two evaluators passed in instead of drawn at random. */
  method CreateRoot(height: int, colour: Colour, state: Board, strategy: Strategy,
                    config1: Board -> Score, config2: Board -> Score) returns (r: Result<Tree>)
    requires 1 <= height
    ensures r == Root(Searching(height, strategy, config1, config2), colour, state)
  {
    r := GrowRoot(Searching(height, strategy, config1, config2), colour, state);
  }
}
