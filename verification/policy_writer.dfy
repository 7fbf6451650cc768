/**
 * `marshalJson` and `unmarshalJson` (policyWriter.go, lines 62-116): the
 * evaluator configuration is written to JSON with its `Vector` keys turned
 * into "(x, y)" strings, and read back by parsing those strings. Both fill
 * freshly made maps entry by entry while ranging over the input maps, in
 * Go's unspecified map order; the model picks each next key with `:|`, so
 * every order is covered.
 */
module PolicyWriter {
  import opened Wrappers
  import opened Utils

  /** A float64 weight; the two conversions copy weights and never compute with them. */
  type Weight = real

  /** `PieceValueConfig` (lines 14-39). */
  datatype PieceValueConfig = PieceValueConfig(
    baseValues: map<string, Weight>,
    positionMod: map<string, map<Vector, Weight>>,
    remainingAlliedPiecesMod: map<string, map<int, Weight>>,
    remainingOpponentPiecesMod: map<string, map<int, Weight>>,
    remainingAlliedPiecesTypeMod: map<string, map<string, Weight>>,
    remainingOpponentPiecesTypeMod: map<string, map<string, Weight>>,
    squareBaseValues: map<Vector, Weight>,
    coveredByMod: map<string, Weight>)

  /** `PieceValueConfigJsonified` (lines 41-50): the same, with string square keys. */
  datatype PieceValueConfigJsonified = PieceValueConfigJsonified(
    baseValues: map<string, Weight>,
    positionMod: map<string, map<string, Weight>>,
    remainingAlliedPiecesMod: map<string, map<int, Weight>>,
    remainingOpponentPiecesMod: map<string, map<int, Weight>>,
    remainingAlliedPiecesTypeMod: map<string, map<string, Weight>>,
    remainingOpponentPiecesTypeMod: map<string, map<string, Weight>>,
    squareBaseValues: map<string, Weight>,
    coveredByMod: map<string, Weight>)

  // ---------------------------------------------------------------------
  // What the conversions promise
  // ---------------------------------------------------------------------

  /** `e` holds every key `x` of `m` under `f(x)`, with its weight, and nothing else. */
  ghost predicate Rekeyed<A, B>(f: A -> B, m: map<A, Weight>, e: map<B, Weight>) {
    && (forall x :: x in m ==> f(x) in e && e[f(x)] == m[x])
    && (forall k :: k in e ==> exists x :: x in m && f(x) == k)
  }

  /**
   * `m` holds what `read` makes of each key of `e`, which it never rejects,
   * and each entry's weight is that of some key read as it: which one, when
   * several are, depends on the order the keys were visited in.
   */
  ghost predicate Collected<A, B>(read: B -> Option<A>, e: map<B, Weight>, m: map<A, Weight>) {
    && (forall k :: k in e ==> read(k).Some? && read(k).value in m)
    && (forall x :: x in m ==> exists k :: k in e && read(k) == Some(x) && m[x] == e[k])
  }

  /** `e` holds every square of `m` under its `toString` key with its weight, and nothing else. */
  ghost predicate Encodes(m: map<Vector, Weight>, e: map<string, Weight>) {
    Rekeyed(ToString, m, e)
  }

  /** Every key of `e` is one `fromString` accepts (a key it rejects makes Go panic). */
  predicate Parses(e: map<string, Weight>) {
    forall k :: k in e ==> FromString(k).Some?
  }

  /** `m` holds the square `fromString` reads from each key of `e`, with the weight of one such key. */
  ghost predicate Decodes(e: map<string, Weight>, m: map<Vector, Weight>) {
    Collected(FromString, e, m)
  }

  /** Lines 62-88: everything but the square keys passes through unchanged. */
  ghost predicate Marshals(c: PieceValueConfig, j: PieceValueConfigJsonified) {
    && j.baseValues == c.baseValues
    && j.remainingAlliedPiecesMod == c.remainingAlliedPiecesMod
    && j.remainingOpponentPiecesMod == c.remainingOpponentPiecesMod
    && j.remainingAlliedPiecesTypeMod == c.remainingAlliedPiecesTypeMod
    && j.remainingOpponentPiecesTypeMod == c.remainingOpponentPiecesTypeMod
    && j.coveredByMod == c.coveredByMod
    && j.positionMod.Keys == c.positionMod.Keys
    && (forall p :: p in c.positionMod ==> Encodes(c.positionMod[p], j.positionMod[p]))
    && Encodes(c.squareBaseValues, j.squareBaseValues)
  }

  /** `unmarshalJson` runs to completion exactly when every square key parses. */
  predicate AllParse(j: PieceValueConfigJsonified) {
    && (forall p :: p in j.positionMod ==> Parses(j.positionMod[p]))
    && Parses(j.squareBaseValues)
  }

  /** Lines 90-116: everything but the square keys passes through unchanged. */
  ghost predicate Unmarshals(j: PieceValueConfigJsonified, c: PieceValueConfig) {
    && c.baseValues == j.baseValues
    && c.remainingAlliedPiecesMod == j.remainingAlliedPiecesMod
    && c.remainingOpponentPiecesMod == j.remainingOpponentPiecesMod
    && c.remainingAlliedPiecesTypeMod == j.remainingAlliedPiecesTypeMod
    && c.remainingOpponentPiecesTypeMod == j.remainingOpponentPiecesTypeMod
    && c.coveredByMod == j.coveredByMod
    && c.positionMod.Keys == j.positionMod.Keys
    && (forall p :: p in j.positionMod ==> Decodes(j.positionMod[p], c.positionMod[p]))
    && Decodes(j.squareBaseValues, c.squareBaseValues)
  }

  // ---------------------------------------------------------------------
  // The loops
  // ---------------------------------------------------------------------

  /**
   * `marshalJson` (lines 62-88). The two re-keyed maps are filled before the
   * result is assembled; in Go they are filled inside the result, which holds
   * them by reference, so the outcome is the same.
   */
  method MarshalJson(c: PieceValueConfig) returns (out: PieceValueConfigJsonified)
    ensures Marshals(c, out)
  {
    var positionMod: map<string, map<string, Weight>> := map[];
    var pieces := c.positionMod.Keys;
    while pieces != {}
      invariant pieces <= c.positionMod.Keys
      invariant positionMod.Keys == c.positionMod.Keys - pieces
      invariant forall p :: p in positionMod ==> Encodes(c.positionMod[p], positionMod[p])
      decreases pieces
    {
      var key :| key in pieces;
      var modifiedMap := EncodeSquares(c.positionMod[key]);
      positionMod := positionMod[key := modifiedMap];
      pieces := pieces - {key};
    }
    var squareBaseValues := EncodeSquares(c.squareBaseValues);
    out := PieceValueConfigJsonified(
      c.baseValues, positionMod, c.remainingAlliedPiecesMod, c.remainingOpponentPiecesMod,
      c.remainingAlliedPiecesTypeMod, c.remainingOpponentPiecesTypeMod, squareBaseValues, c.coveredByMod);
  }

  /** Lines 75-79 and 83-85: one map re-keyed by `toString`. */
  method EncodeSquares(m: map<Vector, Weight>) returns (e: map<string, Weight>)
    ensures Encodes(m, e)
  {
    e := map[];
    var rest := m.Keys;
    while rest != {}
      invariant rest <= m.Keys
      invariant forall v :: v in m && v !in rest ==> ToString(v) in e && e[ToString(v)] == m[v]
      invariant forall k :: k in e ==> exists v :: v in m && v !in rest && ToString(v) == k
      decreases rest
    {
      var v :| v in rest;
      forall w | w in m && w !in rest && ToString(w) == ToString(v)
        ensures false
      {
        ToStringInjective(w, v);
      }
      e := e[ToString(v) := m[v]];
      rest := rest - {v};
    }
  }

  /** `unmarshalJson` (lines 90-116), assembled like `MarshalJson`; a key `fromString` rejects panics. */
  method UnmarshalJson(j: PieceValueConfigJsonified) returns (r: Result<PieceValueConfig>)
    ensures r.Ok? <==> AllParse(j)
    ensures r.Ok? ==> Unmarshals(j, r.value)
  {
    var positionMod: map<string, map<Vector, Weight>> := map[];
    var pieces := j.positionMod.Keys;
    while pieces != {}
      invariant pieces <= j.positionMod.Keys
      invariant positionMod.Keys == j.positionMod.Keys - pieces
      invariant forall p :: p in positionMod ==> Parses(j.positionMod[p]) && Decodes(j.positionMod[p], positionMod[p])
      decreases pieces
    {
      var key :| key in pieces;
      var modifiedMap := DecodeSquares(j.positionMod[key]);
      if modifiedMap.Failed? {
        return Failed(modifiedMap.panic);
      }
      positionMod := positionMod[key := modifiedMap.value];
      pieces := pieces - {key};
    }
    var squareBaseValues := DecodeSquares(j.squareBaseValues);
    if squareBaseValues.Failed? {
      return Failed(squareBaseValues.panic);
    }
    return Ok(PieceValueConfig(
      j.baseValues, positionMod, j.remainingAlliedPiecesMod, j.remainingOpponentPiecesMod,
      j.remainingAlliedPiecesTypeMod, j.remainingOpponentPiecesTypeMod, squareBaseValues.value, j.coveredByMod));
  }

  /**
   * Lines 103-107 and 111-113: one map re-keyed by `fromString`, a later key
   * overwriting an earlier one that reads as the same square. `fromString`
   * panics on a key shorter than two characters or without a comma.
   */
  method DecodeSquares(e: map<string, Weight>) returns (r: Result<map<Vector, Weight>>)
    ensures r.Ok? <==> Parses(e)
    ensures r.Ok? ==> Decodes(e, r.value)
  {
    var m: map<Vector, Weight> := map[];
    var rest := e.Keys;
    while rest != {}
      invariant rest <= e.Keys
      invariant forall k :: k in e && k !in rest ==> FromString(k).Some? && FromString(k).value in m
      invariant forall v :: v in m ==> exists k :: k in e && k !in rest && FromString(k) == Some(v) && m[v] == e[k]
      decreases rest
    {
      var k :| k in rest;
      var v := FromString(k);
      if v.None? {
        return Failed(IndexOutOfRange);
      }
      m := m[v.value := e[k]];
      rest := rest - {k};
    }
    return Ok(m);
  }

  // ---------------------------------------------------------------------
  // Properties
  // ---------------------------------------------------------------------

  /** Re-keying by `toString` keeps the number of keys, since distinct squares get distinct keys. */
  lemma EncodesCount(m: map<Vector, Weight>, e: map<string, Weight>)
    requires Encodes(m, e)
    ensures |e| == |m|
  {
    forall v, w | v in m && w in m && ToString(v) == ToString(w)
      ensures v == w
    {
      ToStringInjective(v, w);
    }
    RekeyedCount(ToString, m, e);
  }

  /** Re-keying by `fromString` never adds keys: colliding keys merge. */
  lemma DecodesCount(e: map<string, Weight>, m: map<Vector, Weight>)
    requires Decodes(e, m)
    ensures |m| <= |e|
  {
    CollectedCount(FromString, e, m);
  }

  /** Every key written for a square whose X fits an int64 is one `fromString` accepts. */
  lemma EncodedParses(m: map<Vector, Weight>, e: map<string, Weight>)
    requires forall v :: v in m ==> IsInt64(v.X)
    requires Encodes(m, e)
    ensures Parses(e)
  {
    forall v | v in m
      ensures FromString(ToString(v)) == Some(Vector(v.X, 0))
    {
      FromStringOfToString(v);
    }
    RekeyedRead(ToString, FromString, (v: Vector) => Vector(v.X, 0), m, e);
  }

  /** `fromString` reads the key of each square (x, y) whose X fits an int64 as (x, 0). */
  lemma ReadsBackFile(squares: set<Vector>, proj: Vector -> Vector)
    requires forall v :: v in squares ==> IsInt64(v.X)
    requires forall v :: proj(v) == Vector(v.X, 0)
    ensures Undoes(FromString, ToString, proj, squares)
  {
    forall v | v in squares
      ensures FromString(ToString(v)) == Some(proj(v))
    {
      FromStringOfToString(v);
    }
  }

  /**
   * `back` holds the square (x, 0) for each square (x, y) of `m` and nothing
   * else, each with the weight of some square of `m` on file x.
   */
  ghost predicate Collapsed(m: map<Vector, Weight>, back: map<Vector, Weight>) {
    && (forall v :: v in m ==> Vector(v.X, 0) in back)
    && (forall w :: w in back ==> w.Y == 0 && exists v :: v in m && v.X == w.X && back[w] == m[v])
  }

  /** Writing then reading a square map: each square (x, y) comes back as (x, 0), with the weight of a square on file x. */
  lemma SquaresRoundTrip(m: map<Vector, Weight>, e: map<string, Weight>, back: map<Vector, Weight>)
    requires forall v :: v in m ==> IsInt64(v.X)
    requires Encodes(m, e) && Decodes(e, back)
    ensures Collapsed(m, back)
  {
    var proj := (v: Vector) => Vector(v.X, 0);
    ReadsBackFile(m.Keys, proj);
    CollapsedBy(m, e, back, proj);
  }

  lemma CollapsedBy(m: map<Vector, Weight>, e: map<string, Weight>, back: map<Vector, Weight>, proj: Vector -> Vector)
    requires Encodes(m, e) && Decodes(e, back)
    requires forall v :: proj(v) == Vector(v.X, 0)
    requires Undoes(FromString, ToString, proj, m.Keys)
    ensures Collapsed(m, back)
  {
    RekeyedThenCollected(ToString, FromString, proj, m, e, back);
    ProjectedCollapsed(m, back, proj);
  }

  lemma ProjectedCollapsed(m: map<Vector, Weight>, back: map<Vector, Weight>, proj: Vector -> Vector)
    requires forall v :: proj(v) == Vector(v.X, 0)
    requires forall v :: v in m ==> proj(v) in back
    requires forall w :: w in back ==> exists v :: v in m && proj(v) == w && back[w] == m[v]
    ensures Collapsed(m, back)
  {
    forall w | w in back
      ensures w.Y == 0 && exists v :: v in m && v.X == w.X && back[w] == m[v]
    {
      var v :| v in m && proj(v) == w && back[w] == m[v];
    }
  }

  // ---------------------------------------------------------------------
  // Re-keying in general
  // ---------------------------------------------------------------------

  /** A re-keying by a function injective on the keys keeps their number. */
  lemma RekeyedCount<A, B>(f: A -> B, m: map<A, Weight>, e: map<B, Weight>)
    requires Rekeyed(f, m, e)
    requires forall x, y :: x in m && y in m && f(x) == f(y) ==> x == y
    ensures |e| == |m|
  {
    InjectiveImageCount(f, m.Keys);
    forall k | k in e
      ensures k in set x | x in m.Keys :: f(x)
    {
      var x :| x in m && f(x) == k;
    }
    assert e.Keys == set x | x in m.Keys :: f(x);
  }

  /** Collecting never makes more keys than there were. */
  lemma CollectedCount<A, B>(read: B -> Option<A>, e: map<B, Weight>, m: map<A, Weight>)
    requires Collected(read, e, m)
    ensures |m| <= |e|
  {
    var some := (x: A) => Some(x);
    var image := set k | k in e.Keys :: read(k);
    var wrapped := set x | x in m.Keys :: some(x);
    ImageAtMost(read, e.Keys);
    InjectiveImageCount(some, m.Keys);
    forall o | o in wrapped
      ensures o in image
    {
      var x :| x in m && some(x) == o;
      var k :| k in e && read(k) == Some(x) && m[x] == e[k];
    }
    SubsetCard(wrapped, image);
  }

  /** `read` undoes `f` on `xs`, up to `proj`. */
  ghost predicate Undoes<A, B>(read: B -> Option<A>, f: A -> B, proj: A -> A, xs: set<A>) {
    forall x :: x in xs ==> read(f(x)) == Some(proj(x))
  }

  /** When `read` undoes `f` up to `proj`, the keys `f` makes are all read. */
  lemma RekeyedRead<A, B>(f: A -> B, read: B -> Option<A>, proj: A -> A, m: map<A, Weight>, e: map<B, Weight>)
    requires Rekeyed(f, m, e)
    requires forall x :: x in m ==> read(f(x)) == Some(proj(x))
    ensures forall k :: k in e ==> read(k).Some?
  {
    forall k | k in e
      ensures read(k).Some?
    {
      var x :| x in m && f(x) == k;
    }
  }

  /** When `read` undoes `f` up to `proj`, re-keying then collecting maps each key through `proj`. */
  lemma RekeyedThenCollected<A, B>(f: A -> B, read: B -> Option<A>, proj: A -> A,
                                   m: map<A, Weight>, e: map<B, Weight>, back: map<A, Weight>)
    requires Rekeyed(f, m, e) && Collected(read, e, back)
    requires Undoes(read, f, proj, m.Keys)
    ensures forall x :: x in m ==> proj(x) in back
    ensures forall y :: y in back ==> exists x :: x in m && proj(x) == y && back[y] == m[x]
  {
    forall x | x in m
      ensures proj(x) in back
    {
      assert f(x) in e;
    }
    forall y | y in back
      ensures exists x :: x in m && proj(x) == y && back[y] == m[x]
    {
      var k :| k in e && read(k) == Some(y) && back[y] == e[k];
      var x :| x in m && f(x) == k;
      assert x in m && proj(x) == y && back[y] == m[x];
    }
  }

  /** An image is no larger than the set it is taken of. */
  lemma {:induction false} ImageAtMost<A, B>(f: A -> B, xs: set<A>)
    ensures |set x | x in xs :: f(x)| <= |xs|
    decreases xs
  {
    if xs != {} {
      var x :| x in xs;
      ImageAtMost(f, xs - {x});
      assert (set y | y in xs :: f(y)) == (set y | y in xs - {x} :: f(y)) + {f(x)};
    }
  }

  /** The image under a function injective on the set is as large as the set. */
  lemma {:induction false} InjectiveImageCount<A, B>(f: A -> B, xs: set<A>)
    requires forall x, y :: x in xs && y in xs && f(x) == f(y) ==> x == y
    ensures |set x | x in xs :: f(x)| == |xs|
    decreases xs
  {
    if xs != {} {
      var x :| x in xs;
      InjectiveImageCount(f, xs - {x});
      assert f(x) !in (set y | y in xs - {x} :: f(y));
      assert (set y | y in xs :: f(y)) == (set y | y in xs - {x} :: f(y)) + {f(x)};
    }
  }

  /** A subset is no larger than its superset. */
  lemma {:induction false} SubsetCard<T>(a: set<T>, b: set<T>)
    requires a <= b
    ensures |a| <= |b|
    decreases |b|
  {
    if a != {} {
      var x :| x in a;
      SubsetCard(a - {x}, b - {x});
    }
  }

  /** Read back, the 64 board squares collapse onto the 8 squares of rank 0. */
  lemma BoardCollapses(m: map<Vector, Weight>, e: map<string, Weight>, back: map<Vector, Weight>)
    requires m.Keys <= Squares() && Encodes(m, e) && Decodes(e, back)
    ensures back.Keys <= RankZero()
    ensures |back| <= 8
  {
    SquaresFit(m.Keys);
    SquaresRoundTrip(m, e, back);
    CollapsedOntoRankZero(m, back);
  }

  /** Board files are small enough for an int64. */
  lemma SquaresFit(squares: set<Vector>)
    requires squares <= Squares()
    ensures forall v :: v in squares ==> IsInt64(v.X)
  {
    forall v | v in squares
      ensures IsInt64(v.X)
    {
      assert !v.IsOutOfBounds();
    }
  }

  lemma CollapsedOntoRankZero(m: map<Vector, Weight>, back: map<Vector, Weight>)
    requires m.Keys <= Squares() && Collapsed(m, back)
    ensures back.Keys <= RankZero()
    ensures |back| <= 8
  {
    forall w | w in back
      ensures w in RankZero()
    {
      var v :| v in m && v.X == w.X && back[w] == m[v];
      assert 0 <= v.X < 8 by {
        assert !v.IsOutOfBounds();
      }
    }
    RankZeroCount();
    SubsetCard(back.Keys, RankZero());
  }

  /** The squares (x, 0), 0 <= x < 8. */
  function RankZero(): (s: set<Vector>)
    ensures forall x :: 0 <= x < 8 ==> Vector(x, 0) in s
  {
    set x | 0 <= x < 8 :: Vector(x, 0)
  }

  lemma RankZeroCount()
    ensures |RankZero()| == 8
  {
    var s := RankZero();
    assert s == {Vector(0, 0), Vector(1, 0), Vector(2, 0), Vector(3, 0), Vector(4, 0), Vector(5, 0), Vector(6, 0), Vector(7, 0)};
  }

  /**
   * The whole round trip: reading back never fails, the fields without
   * square keys come back unchanged, and every square key (x, y) comes back
   * as (x, 0).
   */
  lemma RoundTrip(c: PieceValueConfig, j: PieceValueConfigJsonified, back: PieceValueConfig)
    requires forall p, v :: p in c.positionMod && v in c.positionMod[p] ==> IsInt64(v.X)
    requires forall v :: v in c.squareBaseValues ==> IsInt64(v.X)
    requires Marshals(c, j)
    ensures AllParse(j)
    ensures Unmarshals(j, back) ==>
              && back.baseValues == c.baseValues
              && back.remainingAlliedPiecesMod == c.remainingAlliedPiecesMod
              && back.remainingOpponentPiecesMod == c.remainingOpponentPiecesMod
              && back.remainingAlliedPiecesTypeMod == c.remainingAlliedPiecesTypeMod
              && back.remainingOpponentPiecesTypeMod == c.remainingOpponentPiecesTypeMod
              && back.coveredByMod == c.coveredByMod
              && back.positionMod.Keys == c.positionMod.Keys
              && (forall p :: p in c.positionMod ==> Collapsed(c.positionMod[p], back.positionMod[p]))
              && Collapsed(c.squareBaseValues, back.squareBaseValues)
  {
    forall p | p in c.positionMod
      ensures Parses(j.positionMod[p])
    {
      EncodedParses(c.positionMod[p], j.positionMod[p]);
    }
    EncodedParses(c.squareBaseValues, j.squareBaseValues);
    if Unmarshals(j, back) {
      forall p | p in c.positionMod
        ensures Collapsed(c.positionMod[p], back.positionMod[p])
      {
        SquaresRoundTrip(c.positionMod[p], j.positionMod[p], back.positionMod[p]);
      }
      SquaresRoundTrip(c.squareBaseValues, j.squareBaseValues, back.squareBaseValues);
    }
  }

  /** Only X survives: two squares on the same file read back as one key. */
  lemma SameFileCollides(v: Vector, w: Vector)
    requires IsInt64(v.X) && v.X == w.X
    ensures FromString(ToString(v)) == FromString(ToString(w))
  {
    FromStringOfToString(v);
    FromStringOfToString(w);
  }
}
