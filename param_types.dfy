/**
 * The checks behind the constrained integer types of
 * src/utils/param_types.py. Each runs after pydantic's PositiveInt, so on
 * values above zero; the model states the boolean each lambda returns.
 */
module ParamTypes {
  /** `lambda v: v % 8 == 0`; `%` with a positive divisor is the same in Python and Dafny. */
  predicate IntX8(v: int) { v % 8 == 0 }

  /** `lambda v: v % 32 == 0`. */
  predicate IntX32(v: int) { v % 32 == 0 }

  /** `lambda v: v % 64 == 0`. */
  predicate IntX64(v: int) { v % 64 == 0 }

  lemma MultipleOf8(v: int)
    ensures v % 8 == 0 <==> exists k :: v == 8 * k
  {
    if v % 8 == 0 { assert v == 8 * (v / 8); }
  }

  lemma MultipleOf32(v: int)
    ensures v % 32 == 0 <==> exists k :: v == 32 * k
  {
    if v % 32 == 0 { assert v == 32 * (v / 32); }
  }

  lemma MultipleOf64(v: int)
    ensures v % 64 == 0 <==> exists k :: v == 64 * k
  {
    if v % 64 == 0 { assert v == 64 * (v / 64); }
  }

  /** The three checks hold exactly for the multiples of 8, 32 and 64. */
  lemma MultipleChecks(v: int)
    ensures IntX8(v) <==> exists k :: v == 8 * k
    ensures IntX32(v) <==> exists k :: v == 32 * k
    ensures IntX64(v) <==> exists k :: v == 64 * k
  {
    MultipleOf8(v);
    MultipleOf32(v);
    MultipleOf64(v);
  }

  /** A multiple of 64 passes the 32 and the 8 checks too. */
  lemma IntX64Implies(v: int)
    requires IntX64(v)
    ensures IntX32(v) && IntX8(v)
  {
    var k := v / 64;
    assert v == 64 * k;
    assert v == 32 * (2 * k);
    assert v == 8 * (8 * k);
  }

  /** Python's `a & b` on non-negative integers, bit by bit from the lowest. */
  function BitAnd(a: nat, b: nat): (r: nat)
    ensures r <= a && r <= b
  {
    if a == 0 || b == 0 then 0
    else 2 * BitAnd(a / 2, b / 2) + (if a % 2 == 1 && b % 2 == 1 then 1 else 0)
  }

  function Pow2(k: nat): (p: nat)
    ensures p >= 1
  {
    if k == 0 then 1 else 2 * Pow2(k - 1)
  }

  /** `lambda v: (v & (v - 1)) == 0`, on the positive values PositiveInt lets through. */
  predicate PowerOf2(v: int)
    requires v >= 1
  {
    BitAnd(v, v - 1) == 0
  }

  lemma {:induction false} BitAndSelf(a: nat)
    ensures BitAnd(a, a) == a
  {
    if a != 0 {
      BitAndSelf(a / 2);
    }
  }

  /** An odd `v` above 1 fails the check and is no power of two. */
  lemma OddAboveOne(v: nat)
    requires v > 1 && v % 2 == 1
    ensures !PowerOf2(v)
    ensures forall k: nat :: v != Pow2(k)
  {
    BitAndSelf(v / 2);
    assert (v - 1) / 2 == v / 2 && (v - 1) % 2 == 0;
    assert BitAnd(v, v - 1) == 2 * (v / 2);
    forall k: nat ensures v != Pow2(k) {
      if k > 0 { assert Pow2(k) == 2 * Pow2(k - 1); }
    }
  }

  /** For an even `v`, `v & (v - 1)` is twice the check's value at `v / 2`. */
  lemma EvenStep(v: nat)
    requires v >= 2 && v % 2 == 0
    ensures BitAnd(v, v - 1) == 2 * BitAnd(v / 2, v / 2 - 1)
  {
    assert (v - 1) / 2 == v / 2 - 1 && (v - 1) % 2 == 1;
  }

  /** An even `v` is a power of two exactly when `v / 2` is. */
  lemma {:induction false} EvenPow2(v: nat)
    requires v >= 2 && v % 2 == 0
    ensures (exists k: nat :: v == Pow2(k)) <==> (exists k: nat :: v / 2 == Pow2(k))
  {
    var h := v / 2;
    if exists k: nat :: h == Pow2(k) {
      var k: nat :| h == Pow2(k);
      assert v == Pow2(k + 1);
    }
    if exists k: nat :: v == Pow2(k) {
      var k: nat :| v == Pow2(k);
      assert k > 0;
      var j: nat := k - 1;
      assert v == 2 * Pow2(j);
      assert h == Pow2(j);
    }
  }

  /** For positive `v`, the check holds exactly when `v` is a power of two. */
  lemma {:induction false} PowerOf2Correct(v: int)
    requires v >= 1
    ensures PowerOf2(v) <==> exists k: nat :: v == Pow2(k)
  {
    if v == 1 {
      assert BitAnd(1, 0) == 0;
      assert v == Pow2(0);
    } else if v % 2 == 1 {
      OddAboveOne(v);
    } else {
      EvenStep(v);
      EvenPow2(v);
      PowerOf2Correct(v / 2);
    }
  }
}
