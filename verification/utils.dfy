/**
 * Board coordinates: vector arithmetic, bounds, the "(x, y)" text form used as
 * configuration keys, and algebraic square names.
 */
module Utils {
  import opened Wrappers

  /** A 2D vector; file X and rank Y, both in [0,7] on the board. */
  datatype Vector = Vector(X: int, Y: int) {

    predicate IsOutOfBounds()
      ensures IsOutOfBounds() <==> this !in Squares()
    {
      X < 0 || X > 7 || Y < 0 || Y > 7
    }

    function Add(other: Vector): (r: Vector)
      ensures r.X - X == other.X && r.Y - Y == other.Y
    {
      Vector(X + other.X, Y + other.Y)
    }

    function Mult(c: int): (r: Vector)
      ensures c == 1 ==> r == this
      ensures c == 0 ==> r == Vector(0, 0)
    {
      Vector(X * c, Y * c)
    }
  }

  /** The 64 squares of the board, defined independently of IsOutOfBounds. */
  function Squares(): (s: set<Vector>)
    ensures forall x, y :: 0 <= x < 8 && 0 <= y < 8 ==> Vector(x, y) in s
  {
    set x, y | 0 <= x < 8 && 0 <= y < 8 :: Vector(x, y)
  }

  predicate InBounds(v: Vector) { !v.IsOutOfBounds() }

  /** Scaling by -i gives the opposite vector of scaling by i, so the two loops
      over i = 1..7 and i = -1..-7 walk the two halves of one line. */
  lemma MultNegation(d: Vector, i: int)
    ensures d.Mult(-i) == Vector(-d.Mult(i).X, -d.Mult(i).Y)
    ensures d.Mult(-i).Add(d.Mult(i)) == Vector(0, 0)
  {
  }

  // ---------------------------------------------------------------------
  // Decimal formatting (fmt's %d) and parsing (strconv.Atoi)
  // ---------------------------------------------------------------------

  const MinInt64: int := -0x8000_0000_0000_0000
  const MaxInt64: int := 0x7FFF_FFFF_FFFF_FFFF

  /** Go's `int` is 64 bits wide. */
  predicate IsInt64(n: int) { MinInt64 <= n <= MaxInt64 }

  predicate IsDigit(c: char) { '0' <= c <= '9' }

  predicate AllDigits(s: string) { forall i :: 0 <= i < |s| ==> IsDigit(s[i]) }

  function DigitChar(d: nat): (c: char)
    requires d < 10
    ensures IsDigit(c) && c as int - '0' as int == d
  {
    ('0' as int + d) as char
  }

  /** Decimal digits of a natural number, most significant first, no leading zeros. */
  function NatToDec(n: nat): (s: string)
    ensures |s| >= 1 && AllDigits(s)
    decreases n
  {
    if n < 10 then [DigitChar(n)] else NatToDec(n / 10) + [DigitChar(n % 10)]
  }

  /** `fmt.Sprintf("%d", n)`. */
  function Dec(n: int): (s: string)
    ensures |s| >= 1
    ensures ',' !in s && ' ' !in s
    ensures s[0] == '-' <==> n < 0
  {
    var s := if n < 0 then "-" + NatToDec(-n) else NatToDec(n);
    assert forall i :: 0 <= i < |s| ==> s[i] == '-' || IsDigit(s[i]);
    s
  }

  /** Value of a string of decimal digits. */
  function DigitsValue(s: string): nat
    requires AllDigits(s)
  {
    if s == [] then 0 else DigitsValue(s[..|s| - 1]) * 10 + (s[|s| - 1] as int - '0' as int)
  }

  lemma {:induction false} DigitsValueOfNatToDec(n: nat)
    ensures DigitsValue(NatToDec(n)) == n
    decreases n
  {
    if n >= 10 {
      var s := NatToDec(n);
      DigitsValueOfNatToDec(n / 10);
      assert s[..|s| - 1] == NatToDec(n / 10);
    }
  }

  /** Saturation of strconv's range error: the returned value is the nearest int64. */
  function Clip(n: int): (r: int)
    ensures IsInt64(r)
    ensures IsInt64(n) ==> r == n
  {
    if n < MinInt64 then MinInt64 else if n > MaxInt64 then MaxInt64 else n
  }

  /**
   * The value `strconv.Atoi` returns, its error discarded: an optional sign and at
   * least one decimal digit give the (saturated) number; anything else gives 0.
   */
  function Atoi(s: string): (r: int)
    ensures IsInt64(r)
  {
    var body := if |s| > 0 && (s[0] == '-' || s[0] == '+') then s[1..] else s;
    if |body| == 0 || !AllDigits(body) then 0
    else if s[0] == '-' then Clip(-(DigitsValue(body) as int))
    else Clip(DigitsValue(body))
  }

  /** Atoi reads back exactly what %d printed. */
  lemma AtoiOfDec(n: int)
    requires IsInt64(n)
    ensures Atoi(Dec(n)) == n
  {
    var s := Dec(n);
    if n < 0 {
      var digits := NatToDec(-n);
      DigitsValueOfNatToDec(-n);
      assert s == "-" + digits;
      assert s[1..] == digits;
      assert Atoi(s) == Clip(-(DigitsValue(digits) as int));
    } else {
      var digits := NatToDec(n);
      DigitsValueOfNatToDec(n);
      assert s == digits && s[0] != '-' && s[0] != '+';
      assert Atoi(s) == Clip(DigitsValue(digits));
    }
  }

  /** A leading space is a syntax error for Atoi, which then reads as 0. */
  lemma AtoiLeadingSpace(t: string)
    ensures Atoi(" " + t) == 0
  {
    assert !IsDigit((" " + t)[0]);
  }

  /** %d is injective. */
  lemma DecInjective(a: int, b: int)
    requires Dec(a) == Dec(b)
    ensures a == b
  {
    assert a < 0 <==> b < 0;
    if a < 0 {
      DigitsValueOfNatToDec(-a);
      assert Dec(a)[1..] == NatToDec(-a);
    } else {
      DigitsValueOfNatToDec(a);
    }
    if b < 0 {
      DigitsValueOfNatToDec(-b);
      assert Dec(b)[1..] == NatToDec(-b);
    } else {
      DigitsValueOfNatToDec(b);
    }
  }

  // ---------------------------------------------------------------------
  // strings.Split with a one-character separator
  // ---------------------------------------------------------------------

  function IndexOf(s: string, c: char): (i: nat)
    requires c in s
    ensures i < |s| && s[i] == c && c !in s[..i]
  {
    if s[0] == c then 0 else IndexOf(s[1..], c) + 1
  }

  /** `strings.Split(s, string(c))`: the pieces between occurrences of c. */
  function Split(s: string, c: char): (r: seq<string>)
    ensures |r| >= 1
    decreases |s|
  {
    if c !in s then [s]
    else
      var i := IndexOf(s, c);
      [s[..i]] + Split(s[i + 1..], c)
  }

  lemma SplitAtOne(a: string, b: string, c: char)
    requires c !in a && c !in b
    ensures Split(a + [c] + b, c) == [a, b]
  {
    var s := a + [c] + b;
    assert s[|a|] == c;
    assert c in s;
    var i := IndexOf(s, c);
    assert s[..|a|] == a;
    assert i == |a|;
    assert s[..i] == a;
    assert s[i + 1..] == b;
  }

  // ---------------------------------------------------------------------
  // toString / fromString / boardPosition
  // ---------------------------------------------------------------------

  /** `Vector.toString`: "(X, Y)". */
  function ToString(v: Vector): (s: string)
    ensures s == "(" + Dec(v.X) + ", " + Dec(v.Y) + ")"
    ensures |s| >= 6 && s[0] == '(' && s[|s| - 1] == ')'
  {
    "(" + Dec(v.X) + ", " + Dec(v.Y) + ")"
  }

  /**
   * `fromString`: strip the first and last character, split at ',' and Atoi the
   * first two fields, discarding errors. A string shorter than two characters,
   * or without a comma, makes Go panic (slice bounds or index out of range).
   */
  function FromString(vect: string): (r: Option<Vector>)
    ensures r.None? <==> |vect| < 2 || ',' !in vect[1..|vect| - 1]
  {
    if |vect| < 2 then None
    else
      var nums := Split(vect[1..|vect| - 1], ',');
      if |nums| < 2 then None else Some(Vector(Atoi(nums[0]), Atoi(nums[1])))
  }

  /** Inner text of ToString(v), between the parentheses, splits into Dec(X) and " " + Dec(Y). */
  lemma SplitToString(v: Vector)
    ensures var s := ToString(v); Split(s[1..|s| - 1], ',') == [Dec(v.X), " " + Dec(v.Y)]
  {
    var s := ToString(v);
    assert s[1..|s| - 1] == Dec(v.X) + [','] + (" " + Dec(v.Y));
    SplitAtOne(Dec(v.X), " " + Dec(v.Y), ',');
  }

  /** toString is injective: distinct vectors have distinct keys. */
  lemma ToStringInjective(v: Vector, w: Vector)
    requires ToString(v) == ToString(w)
    ensures v == w
  {
    SplitToString(v);
    SplitToString(w);
    DecInjective(v.X, w.X);
    assert (" " + Dec(v.Y))[1..] == Dec(v.Y);
    assert (" " + Dec(w.Y))[1..] == Dec(w.Y);
    DecInjective(v.Y, w.Y);
  }

  /** With no spaces, "(a,b)" reads back as (a, b). */
  lemma FromStringWithoutSpaces(a: int, b: int)
    requires IsInt64(a) && IsInt64(b)
    ensures FromString("(" + Dec(a) + "," + Dec(b) + ")") == Some(Vector(a, b))
  {
    var s := "(" + Dec(a) + "," + Dec(b) + ")";
    assert s[1..|s| - 1] == Dec(a) + [','] + Dec(b);
    SplitAtOne(Dec(a), Dec(b), ',');
    AtoiOfDec(a);
    AtoiOfDec(b);
  }

  /**
   * The round trip through the configuration key loses Y: the second field keeps
   * the space that toString put after the comma, Atoi rejects it, and the error
   * is discarded, so Y reads as 0.
   */
  lemma FromStringOfToString(v: Vector)
    requires IsInt64(v.X)
    ensures FromString(ToString(v)) == Some(Vector(v.X, 0))
  {
    SplitToString(v);
    AtoiOfDec(v.X);
    AtoiLeadingSpace(Dec(v.Y));
  }

  /** `boardPosition`: file letter then rank digit, as in "e4". */
  function BoardPosition(v: Vector): (s: string)
    requires InBounds(v)
    ensures |s| == 2
    ensures 'a' <= s[0] <= 'h' && s[0] as int - 'a' as int == v.X
    ensures '1' <= s[1] <= '8' && s[1] as int - '1' as int == v.Y
  {
    [('a' as int + v.X) as char] + Dec(v.Y + 1)
  }

  /** Distinct squares have distinct names. */
  lemma BoardPositionInjective(v: Vector, w: Vector)
    requires InBounds(v) && InBounds(w)
    requires BoardPosition(v) == BoardPosition(w)
    ensures v == w
  {
    assert BoardPosition(v)[0] == BoardPosition(w)[0];
    assert BoardPosition(v)[1] == BoardPosition(w)[1];
  }
}
