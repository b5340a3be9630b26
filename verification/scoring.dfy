/**
  The evaluator's result, Python's ordering on it, and the two numeric helpers
  (uniform sampling and clamping) that the four searches share.
 */
module Scoring {

  /** What the fitness function returns: the recognition confidence and the predicted name. */
  datatype Score = Score(confidence: real, name: string)

  /** The result of an evaluation that failed inside the recogniser. */
  const Degenerate: Score := Score(0.0, "undefined")

  /** A value that `random.random()` can return. */
  predicate IsDraw(u: real)
  {
    0.0 <= u < 1.0
  }

  predicate AllDraws(us: seq<real>)
  {
    forall k :: 0 <= k < |us| ==> IsDraw(us[k])
  }

  /** Python's `<` on str: code point by code point, a proper prefix first. */
  predicate StrLess(a: string, b: string)
  {
    if a == [] then b != []
    else if b == [] then false
    else if a[0] != b[0] then a[0] < b[0]
    else StrLess(a[1..], b[1..])
  }

  /** Python's `<` on the (confidence, name) tuple: lexicographic. */
  predicate Less(x: Score, y: Score)
  {
    x.confidence < y.confidence || (x.confidence == y.confidence && StrLess(x.name, y.name))
  }

  lemma {:induction false} StrLessIrreflexive(a: string)
    ensures !StrLess(a, a)
  {
    if a != [] {
      StrLessIrreflexive(a[1..]);
    }
  }

  lemma {:induction false} StrLessTransitive(a: string, b: string, c: string)
    requires StrLess(a, b) && StrLess(b, c)
    ensures StrLess(a, c)
  {
    if a != [] && b != [] && c != [] && a[0] == b[0] && b[0] == c[0] {
      StrLessTransitive(a[1..], b[1..], c[1..]);
    }
  }

  lemma {:induction false} StrLessTotal(a: string, b: string)
    ensures a == b || StrLess(a, b) || StrLess(b, a)
  {
    if a != [] && b != [] && a[0] == b[0] {
      StrLessTotal(a[1..], b[1..]);
      if a[1..] == b[1..] {
        assert a == [a[0]] + a[1..] && b == [b[0]] + b[1..];
      }
    }
  }

  lemma LessIrreflexive(x: Score)
    ensures !Less(x, x)
  {
    StrLessIrreflexive(x.name);
  }

  lemma LessTransitive(x: Score, y: Score, z: Score)
    requires Less(x, y) && Less(y, z)
    ensures Less(x, z)
  {
    if x.confidence == y.confidence == z.confidence {
      StrLessTransitive(x.name, y.name, z.name);
    }
  }

  lemma LessAsymmetric(x: Score, y: Score)
    requires Less(x, y)
    ensures !Less(y, x)
  {
    if Less(y, x) {
      LessTransitive(x, y, x);
      LessIrreflexive(x);
    }
  }

  /** Two tuples that are not equal are ordered one way or the other. */
  lemma LessTotal(x: Score, y: Score)
    ensures x == y || Less(x, y) || Less(y, x)
  {
    StrLessTotal(x.name, y.name);
  }

  /** "x <= y" in Python, derived from `<` and the totality of the order. */
  lemma NotLessTransitive(x: Score, y: Score, z: Score)
    requires !Less(y, x) && !Less(z, y)
    ensures !Less(z, x)
  {
    LessTotal(x, y);
    LessTotal(y, z);
    if Less(z, x) {
      if x != y {
        if y != z {
          LessTransitive(x, y, z);
          LessAsymmetric(x, z);
        } else {
          LessAsymmetric(z, x);
        }
      } else {
        LessIrreflexive(x);
        if y != z {
          LessAsymmetric(y, z);
        }
      }
    }
  }

  /**
    Python's built-in `max(a, b)`: the first argument is kept unless the
    second is strictly greater.
   */
  function Max(a: Score, b: Score): (m: Score)
    ensures m == a || m == b
    ensures !Less(m, a) && !Less(m, b)
    ensures m != a ==> Less(a, b)
  {
    if Less(a, b) then
      LessAsymmetric(a, b);
      LessIrreflexive(b);
      b
    else
      LessIrreflexive(a);
      a
  }

  /**
    `random.uniform(lo, hi)` computed as CPython does, `lo + (hi - lo) * u`,
    from a `random.random()` draw `u` in [0, 1).
   */
  function Uniform(lo: real, hi: real, u: real): (r: real)
    ensures IsDraw(u) && lo <= hi ==> lo <= r <= hi
    ensures IsDraw(u) && hi <= lo ==> hi <= r <= lo
  {
    var offset := (hi - lo) * u;
    ScaledDraw(hi - lo, u, offset);
    lo + offset
  }

  /** The product of two non-negative reals is non-negative (a fact the solver needs stated for fresh factors). */
  lemma MulNonNegative(a: real, b: real)
    requires 0.0 <= a && 0.0 <= b
    ensures 0.0 <= a * b
  {
  }

  /** A draw u in [0, 1) scaled by d lies between 0 and d. */
  lemma ScaledDraw(d: real, u: real, offset: real)
    requires offset == d * u
    ensures IsDraw(u) && 0.0 <= d ==> 0.0 <= offset <= d
    ensures IsDraw(u) && d <= 0.0 ==> d <= offset <= 0.0
  {
    if IsDraw(u) && 0.0 <= d {
      MulNonNegative(d, u);
      MulNonNegative(d, 1.0 - u);
      assert d * (1.0 - u) == d - offset;
    } else if IsDraw(u) {
      MulNonNegative(-d, u);
      MulNonNegative(-d, 1.0 - u);
      assert (-d) * u == - offset;
      assert (-d) * (1.0 - u) == offset - d;
    }
  }

  /** `max(min(x, hi), lo)`: the point of [lo, hi] nearest to x. */
  function Clamp(x: real, lo: real, hi: real): (r: real)
    requires lo <= hi
    ensures lo <= r <= hi
    ensures lo <= x <= hi ==> r == x
    ensures x < lo ==> r == lo
    ensures hi < x ==> r == hi
  {
    var m := if x < hi then x else hi;
    if m > lo then m else lo
  }
}
