/** Optional values: the model's rendering of JavaScript's `null` / `undefined`. */
module Wrappers {
  datatype Option<+T> = None | Some(value: T)
}

/** Small arithmetic helpers shared by the rules, the decision and learning. */
module Arith {
  function Min(a: int, b: int): int { if a <= b then a else b }

  function Max(a: int, b: int): int { if a >= b then a else b }

  function Abs(a: int): nat { if a < 0 then -a else a }

  /** `x.toFixed(0)` on the quotient `num / den` read back as a number: the
      magnitude is rounded half up and the sign is put back, so halves round
      away from zero.  The result is the integer nearest to `num / den`. */
  function RoundHalfAway(num: int, den: int): (r: int)
    requires den != 0
    ensures 2 * Abs(num - r * den) <= Abs(den)
    ensures (num >= 0) == (den > 0) ==> r >= 0
    ensures 2 * Abs(num - r * den) == Abs(den) ==> Abs(num) < Abs(r * den)
  {
    var q: int := HalfUpQuotient(Abs(num), Abs(den));
    var r := if (num < 0) != (den < 0) then -q else q;
    SignedProduct(num, den, q, r);
    r
  }

  /** The magnitude of the quotient, rounded half up. */
  function HalfUpQuotient(a: nat, b: nat): (q: nat)
    requires b > 0
    ensures 2 * Abs(a - q * b) <= b
    ensures 2 * Abs(a - q * b) == b ==> a < q * b
  {
    var q := (2 * a + b) / (2 * b);
    var rem := (2 * a + b) % (2 * b);
    assert 2 * a + b == q * (2 * b) + rem && 0 <= rem < 2 * b;
    assert 2 * (a - q * b) == rem - b;
    q
  }

  /** Halves go away from zero on both sides. */
  lemma RoundHalfAwayExamples()
    ensures RoundHalfAway(5, 2) == 3 && RoundHalfAway(-5, 2) == -3 && RoundHalfAway(7, 3) == 2
  {
  }

  lemma SignedProduct(num: int, den: int, q: int, r: int)
    requires den != 0
    requires r == if (num < 0) != (den < 0) then -q else q
    requires q >= 0
    ensures Abs(num - r * den) == Abs(Abs(num) - q * Abs(den))
    ensures Abs(r * den) == q * Abs(den)
  {
    if den < 0 {
      assert r * den == -r * Abs(den);
    } else {
      assert r * den == r * Abs(den);
    }
  }
}

/** Order-preserving selection, the model of `Array.prototype.filter` and of a
    `SELECT ... WHERE` over one table. */
module Seqs {
  function Select<T(!new)>(s: seq<T>, p: T -> bool): (r: seq<T>)
    ensures |r| <= |s|
    ensures forall x :: x in r <==> x in s && p(x)
    ensures forall i :: 0 <= i < |r| ==> p(r[i])
  {
    if s == [] then []
    else if p(s[0]) then [s[0]] + Select(s[1..], p)
    else Select(s[1..], p)
  }

  /** Selecting from a concatenation selects from each part. */
  lemma {:induction false} SelectAppend<T(!new)>(s: seq<T>, t: seq<T>, p: T -> bool)
    ensures Select(s + t, p) == Select(s, p) + Select(t, p)
  {
    if s == [] {
      assert s + t == t;
    } else {
      assert (s + t)[1..] == s[1..] + t;
      SelectAppend(s[1..], t, p);
    }
  }
}
