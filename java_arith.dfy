/**
 * Java's fixed-width integer arithmetic over Dafny's unbounded integers:
 * the two widths the generator produces (int and long), two's-complement
 * wrap-around of `+=`, and the double-to-integer casts used by the samplers.
 */
module JavaArith {

  datatype Width = Int32 | Int64

  function Modulus(w: Width): int
  {
    match w
    case Int32 => 0x1_0000_0000
    case Int64 => 0x1_0000_0000_0000_0000
  }

  /** Integer.MAX_VALUE or Long.MAX_VALUE. */
  function MaxValue(w: Width): int
  {
    match w
    case Int32 => 0x7fff_ffff
    case Int64 => 0x7fff_ffff_ffff_ffff
  }

  function MinValue(w: Width): int
  {
    -MaxValue(w) - 1
  }

  predicate InRange(w: Width, x: int)
  {
    MinValue(w) <= x <= MaxValue(w)
  }

  /**
   * The value a Java int/long variable holds after an assignment of the
   * mathematical value x: the unique in-range value congruent to x.
   */
  function Wrap(w: Width, x: int): (r: int)
    ensures InRange(w, r)
    ensures InRange(w, x) ==> r == x
    decreases if x > MaxValue(w) then x - MaxValue(w) else if x < MinValue(w) then MinValue(w) - x else 0
  {
    if x > MaxValue(w) then Wrap(w, x - Modulus(w))
    else if x < MinValue(w) then Wrap(w, x + Modulus(w))
    else x
  }

  /** Adding the modulus once does not change the wrapped value. */
  lemma WrapShift(w: Width, x: int)
    ensures Wrap(w, x + Modulus(w)) == Wrap(w, x)
  {
    if x + Modulus(w) <= MaxValue(w) {
      assert x < MinValue(w);
    }
  }

  /** Two values that differ by a multiple of the modulus wrap to the same value. */
  lemma {:induction false} WrapCongruent(w: Width, x: int, k: int)
    ensures Wrap(w, x + k * Modulus(w)) == Wrap(w, x)
    decreases if k >= 0 then k else -k
  {
    var m := Modulus(w);
    if k > 0 {
      WrapCongruent(w, x, k - 1);
      WrapShift(w, x + (k - 1) * m);
      assert x + (k - 1) * m + m == x + k * m;
    } else if k < 0 {
      WrapCongruent(w, x, k + 1);
      WrapShift(w, x + k * m);
      assert x + k * m + m == x + (k + 1) * m;
    }
  }

  /** Every value differs from its wrapped value by a multiple of the modulus. */
  lemma {:induction false} WrapDifference(w: Width, x: int) returns (k: int)
    ensures x == Wrap(w, x) + k * Modulus(w)
    decreases if x > MaxValue(w) then x - MaxValue(w) else if x < MinValue(w) then MinValue(w) - x else 0
  {
    if x > MaxValue(w) {
      k := WrapDifference(w, x - Modulus(w));
      k := k + 1;
    } else if x < MinValue(w) {
      k := WrapDifference(w, x + Modulus(w));
      k := k - 1;
    } else {
      k := 0;
    }
  }

  /**
   * Wrapping after every addition gives the same value as wrapping once at
   * the end: a chain of Java `+=` computes the wrapped mathematical sum.
   */
  lemma {:induction false} WrapAdd(w: Width, a: int, b: int)
    ensures Wrap(w, Wrap(w, a) + b) == Wrap(w, a + b)
  {
    var k := WrapDifference(w, a);
    WrapCongruent(w, Wrap(w, a) + b, k);
    assert Wrap(w, a) + b + k * Modulus(w) == a + b;
  }

  /**
   * `(double) Integer.MAX_VALUE` and `(double) Long.MAX_VALUE`: the first is
   * exact, the second rounds up to 2^63.
   */
  function Threshold(w: Width): real
  {
    match w
    case Int32 => 2147483647.0
    case Int64 => 9223372036854775808.0
  }

  /**
   * Java's `(int) v` / `(long) v` for a non-negative v no greater than the
   * threshold: truncation toward zero, saturating at the type's maximum
   * (reached only by `(long) 2^63`).
   */
  function Truncate(w: Width, v: real): (r: int)
    requires 0.0 <= v <= Threshold(w)
    ensures 0 <= r <= MaxValue(w)
    ensures r as real <= v
    ensures v < MaxValue(w) as real + 1.0 ==> v < r as real + 1.0
    ensures v >= MaxValue(w) as real + 1.0 ==> r == MaxValue(w)
  {
    if v >= MaxValue(w) as real + 1.0 then MaxValue(w) else v.Floor
  }
}
