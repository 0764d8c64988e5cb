/** Candidate confidence and status: internal/domain/confidence.go, over exact reals.
 *
 *  `math.Sqrt` and `math.Exp` enter as a `Math` value whose laws are stated by `Lawful`.
 */
module Confidence {

  const WILSON_Z: real := 1.28
  const Z2: real := WILSON_Z * WILSON_Z
  const UNDER_REVIEW_THRESHOLD: real := 0.55
  const MIN_EVIDENCE_COUNT := 3
  const RECENCY_HALF_LIFE_DAYS: real := 30.0
  const RECENCY_FLOOR: real := 0.1

  datatype Status = Candidate | UnderReview | Promoted | Rejected

  /** The two library functions the arithmetic relies on. */
  datatype Math = Math(sqrt: real -> real, exp: real -> real) {
    ghost predicate Lawful() {
      && (forall x: real :: x >= 0.0 ==> sqrt(x) >= 0.0 && sqrt(x) * sqrt(x) == x)
      && exp(0.0) == 1.0
      && (forall x: real :: x <= 0.0 ==> 0.0 < exp(x) <= 1.0)
    }

    /** `exp` turns sums into products. */
    ghost predicate Exponential() {
      forall x: real, y: real :: exp(x + y) == exp(x) * exp(y)
    }
  }

  function Clamp01(v: real): real {
    if v < 0.0 then 0.0 else if v > 1.0 then 1.0 else v
  }

  /** The radicand under the square root of the Wilson lower bound. */
  function Radicand(e: int, n: int): real
    requires n > 0
  {
    var pHat := e as real / n as real;
    pHat * (1.0 - pHat) / n as real + Z2 / (4.0 * n as real * n as real)
  }

  function WilsonRaw(m: Math, e: int, n: int): real
    requires n > 0
  {
    var pHat := e as real / n as real;
    var denominator := 1.0 + Z2 / n as real;
    var centre := pHat + Z2 / (2.0 * n as real);
    var margin := WILSON_Z * m.sqrt(Radicand(e, n));
    (centre - margin) / denominator
  }

  function WilsonLower(m: Math, evidenceCount: int, totalCount: int): real {
    if evidenceCount <= 0 || totalCount <= 0 then 0.0
    else Clamp01(WilsonRaw(m, evidenceCount, totalCount))
  }

  /** The decay before it is floored. */
  function Decay(m: Math, age: real): real {
    m.exp(-age / RECENCY_HALF_LIFE_DAYS)
  }

  /** `age` is the time since the candidate was last seen, in days. */
  function RecencyFactor(m: Math, neverSeen: bool, age: real): real {
    if neverSeen || age < 0.0 then 1.0
    else
      var decay := Decay(m, age);
      if decay > RECENCY_FLOOR then decay else RECENCY_FLOOR
  }

  function AtLeastOne(n: nat): nat {
    if n == 0 then 1 else n
  }

  function ScopeConsistencyFactor(distinctCases: nat, distinctTenants: nat): real {
    var score := 0.8 + 0.1 * (AtLeastOne(distinctCases) - 1) as real + 0.05 * (AtLeastOne(distinctTenants) - 1) as real;
    if score < 1.0 then score else 1.0
  }

  /** A product by name, so that the steps around it are linear. */
  function Times(a: real, b: real): real {
    a * b
  }

  function Combine(wilson: real, recency: real, consistency: real): real {
    Clamp01(Times(Times(wilson, recency), consistency))
  }

  function CandidateConfidence(m: Math, evidence: int, contradicting: int,
      distinctCases: nat, distinctTenants: nat, neverSeen: bool, age: real): real
  {
    Combine(WilsonLower(m, evidence, evidence + contradicting),
      RecencyFactor(m, neverSeen, age), ScopeConsistencyFactor(distinctCases, distinctTenants))
  }

  function CandidateStatus(confidence: real, evidence: int, contradicting: int): Status {
    if confidence >= UNDER_REVIEW_THRESHOLD && evidence >= MIN_EVIDENCE_COUNT && contradicting == 0
    then UnderReview
    else Candidate
  }

  // ----- Sign and order of products

  lemma ProductSign(a: real, b: real)
    requires a >= 0.0 && b >= 0.0
    ensures a * b >= 0.0
    ensures a > 0.0 && b > 0.0 ==> a * b > 0.0
  {
  }

  /** Scaling by a positive factor keeps the order. */
  lemma Scale(c: real, a: real, b: real)
    requires c > 0.0
    ensures a < b <==> c * a < c * b
    ensures a == b <==> c * a == c * b
  {
    var d := if a < b then b - a else a - b;
    ProductSign(c, d);
  }

  /** A square that exceeds another by `gap` belongs to the larger magnitude. */
  lemma SquareGap(p: real, v: real, gap: real)
    requires p >= 0.0 && gap >= 0.0 && p * p == v * v + gap
    ensures -p <= v <= p
    ensures gap > 0.0 ==> -p < v < p
  {
    var m := if v < 0.0 then -v else v;
    assert m * m == v * v;
    var d, sum := m - p, m + p;
    assert d * sum == m * m - p * p;
    if d > 0.0 {
      ProductSign(d, sum);
    }
  }

  lemma QuotientSign(a: real, b: real)
    requires a >= 0.0 && b > 0.0
    ensures a / b >= 0.0
    ensures a > 0.0 ==> a / b > 0.0
  {
    var q := a / b;
    assert b * q == a;
    Scale(b, 0.0, q);
  }

  /** A factor in (0, 1] shrinks a positive number and keeps it positive. */
  lemma Shrink(x: real, r: real)
    requires x > 0.0 && 0.0 < r <= 1.0
    ensures 0.0 < x * r <= x
  {
    Scale(x, 0.0, r);
    Scale(x, 1.0, r);
  }

  // ----- The Wilson bound is the smaller root of the score equation
  // q is the observed fraction e/n and k is z^2/n.

  /** The score equation (q - p)^2 == k p(1 - p), as a difference. */
  function Score(q: real, k: real, p: real): real {
    (q - p) * (q - p) - k * (p * (1.0 - p))
  }

  /** `t` is the half-distance of the roots, scaled by 1 + k. */
  ghost predicate IsMargin(q: real, k: real, t: real) {
    0.0 < q <= 1.0 && k > 0.0 && t >= 0.0 && t * t == k * (q * (1.0 - q)) + k * k / 4.0
  }

  ghost predicate IsLowerRoot(q: real, k: real, t: real, w: real) {
    IsMargin(q, k, t) && (1.0 + k) * w == q + k / 2.0 - t
  }

  /** Completing the square: the score changes sign exactly at margin distance from the centre. */
  lemma CompletedSquare(q: real, k: real, t: real, p: real, x: real)
    requires IsMargin(q, k, t)
    requires x == p + k * p - q - k / 2.0
    ensures (1.0 + k) * Score(q, k, p) == x * x - t * t
  {
    var kp := k * p;
    assert Score(q, k, p) == q * q - 2.0 * (q * p) + p * p - kp + kp * p;
    assert k * (q * (1.0 - q)) == k * q - k * q * q;
    assert x * x == (p + kp) * (p + kp) - (2.0 * q + k) * (p + kp) + (q + k / 2.0) * (q + k / 2.0);
  }

  lemma ScoreSign(q: real, k: real, t: real, p: real, x: real)
    requires IsMargin(q, k, t)
    requires x == p + k * p - q - k / 2.0
    ensures Score(q, k, p) > 0.0 <==> x * x > t * t
    ensures Score(q, k, p) == 0.0 <==> x * x == t * t
  {
    CompletedSquare(q, k, t, p, x);
    var a, score := 1.0 + k, Score(q, k, p);
    Scale(a, 0.0, score);
  }

  /** The fraction q lies strictly right of the lower root and not right of the upper one. */
  lemma MarginExceedsOffset(q: real, k: real, t: real)
    requires IsMargin(q, k, t)
    ensures k / 2.0 - k * q < t
    ensures k * q - k / 2.0 <= t
  {
    var v, u := k / 2.0 - k * q, 1.0 - q;
    ProductSign(q, u);
    var qu, a := q * u, 1.0 + k;
    ProductSign(k, qu);
    var kqu := k * qu;
    ProductSign(kqu, a);
    assert t * t == v * v + kqu * a by {
      assert qu == q - q * q;
      assert v * v == k * k / 4.0 - k * k * qu;
      assert kqu * a == k * qu + k * k * qu;
    }
    SquareGap(t, v, kqu * a);
    ProductSign(k, q);
  }

  /** The lower root lies strictly between zero and q. */
  lemma LowerRootBounds(q: real, k: real, t: real, w: real)
    requires IsLowerRoot(q, k, t, w)
    ensures 0.0 < w < q
    ensures Score(q, k, w) == 0.0
  {
    ProductSign(q, q);
    ScoreSign(q, k, t, 0.0, -q - k / 2.0);
    var b, gap := q + k / 2.0, (q + k / 2.0) * (q + k / 2.0) - t * t;
    assert (-b) * (-b) == b * b;
    SquareGap(b, t, gap);
    var a := 1.0 + k;
    Scale(a, 0.0, w);
    MarginExceedsOffset(q, k, t);
    Scale(a, w, q);
    assert (-t) * (-t) == t * t;
    ScoreSign(q, k, t, w, -t);
  }

  lemma LeftOfUpperRoot(q: real, k: real, t: real, p: real, x: real)
    requires IsMargin(q, k, t) && p < q
    requires x == p + k * p - q - k / 2.0
    ensures x < t
  {
    MarginExceedsOffset(q, k, t);
    Scale(k, p, q);
  }

  /** A number below t whose square exceeds that of t is below -t. */
  lemma BeyondMargin(x: real, t: real)
    requires t >= 0.0 && x < t && x * x > t * t
    ensures x < -t
  {
    var m := if x >= 0.0 then x else -x;
    assert m * m == x * x;
    SquareGap(m, t, x * x - t * t);
  }

  /** Left of q, the score is positive only before the lower root. */
  lemma BelowLowerRoot(q: real, k: real, t: real, w: real, p: real)
    requires IsLowerRoot(q, k, t, w)
    requires p < q && Score(q, k, p) > 0.0
    ensures p < w
  {
    var a, x := 1.0 + k, p + k * p - q - k / 2.0;
    ScoreSign(q, k, t, p, x);
    LeftOfUpperRoot(q, k, t, p, x);
    hide Score;
    BeyondMargin(x, t);
    assert a * p == p + k * p;
    Scale(a, p, w);
  }

  lemma LowerRootIsLeast(q: real, k: real, t: real, w: real, p: real)
    requires IsLowerRoot(q, k, t, w) && Score(q, k, p) == 0.0
    ensures w <= p
  {
    var a, x := 1.0 + k, p + k * p - q - k / 2.0;
    ScoreSign(q, k, t, p, x);
    SquareGap(t, x, 0.0);
    Scale(a, p, w);
  }

  // ----- The code's formula is that root

  function Fraction(e: int, n: int): real
    requires n > 0
  {
    e as real / n as real
  }

  function Weight(n: int): real
    requires n > 0
  {
    Z2 / n as real
  }

  function Margin(m: Math, e: int, n: int): real
    requires n > 0
  {
    WILSON_Z * m.sqrt(Radicand(e, n))
  }

  lemma FractionBounds(e: int, n: int)
    requires 1 <= e <= n
    ensures 0.0 < Fraction(e, n) <= 1.0 && Weight(n) > 0.0
    ensures n as real * Fraction(e, n) == e as real && n as real * Weight(n) == Z2
  {
    var nr, q := n as real, Fraction(e, n);
    QuotientSign(e as real, nr);
    Scale(nr, 1.0, q);
    QuotientSign(Z2, nr);
  }

  /** z^2 times the radicand is the squared margin; `g` is 1/n and `h` is 1/(4n^2), as the code divides. */
  lemma ClearRadicand(n: real, z2: real, v: real, k: real)
    requires n > 0.0 && k == z2 / n
    ensures z2 * (v / n + z2 / (4.0 * n * n)) == k * v + k * k / 4.0
  {
    var g := 1.0 / n;
    assert n * g == 1.0;
    var r, h := v / n, z2 / (4.0 * n * n);
    assert n * r == v;
    assert r == v * g by {
      assert n * (v * g) == v * (n * g);
      Scale(n, r, v * g);
    }
    assert k == z2 * g by {
      assert n * k == z2;
      assert n * (z2 * g) == z2 * (n * g);
      Scale(n, k, z2 * g);
    }
    var nn := n * n;
    ProductSign(n, n);
    assert (4.0 * nn) * h == z2;
    assert nn * (g * g) == (n * g) * (n * g);
    var kg := z2 * (g * g) / 4.0;
    assert nn * kg == z2 * (nn * (g * g)) / 4.0;
    Scale(nn, h, kg);
    assert z2 * (v * g) == (z2 * g) * v;
    assert z2 * (z2 * (g * g)) == (z2 * g) * (z2 * g);
  }

  lemma RawIsLowerRoot(m: Math, e: int, n: int)
    requires m.Lawful() && 1 <= e <= n
    ensures IsLowerRoot(Fraction(e, n), Weight(n), Margin(m, e, n), WilsonRaw(m, e, n))
  {
    FractionBounds(e, n);
    var nr, q, k, s, t := n as real, Fraction(e, n), Weight(n), m.sqrt(Radicand(e, n)), Margin(m, e, n);
    var u := 1.0 - q;
    ProductSign(q, u);
    var v := q * u;
    ClearRadicand(nr, Z2, v, k);
    var scaled := Z2 * Radicand(e, n);
    assert scaled == k * v + k * k / 4.0;
    ProductSign(k, v);
    ProductSign(k, k);
    Scale(Z2, 0.0, Radicand(e, n));
    assert t * t == Z2 * (s * s);
    assert t >= 0.0;
    var half, w := Z2 / (2.0 * nr), WilsonRaw(m, e, n);
    assert half == k / 2.0 by {
      assert 2.0 * nr * half == Z2;
      Scale(nr, half, k / 2.0);
    }
    assert (1.0 + k) * w == q + half - t;
  }

  /** The equation as it reads in the statistics: n(e/n - p)^2 == z^2 p(1 - p). */
  ghost predicate SolvesWilsonEquation(e: int, n: int, p: real)
    requires n > 0
  {
    n as real * ((Fraction(e, n) - p) * (Fraction(e, n) - p)) == Z2 * (p * (1.0 - p))
  }

  lemma ScoreIsWilsonEquation(e: int, n: int, p: real)
    requires 1 <= e <= n
    ensures SolvesWilsonEquation(e, n, p) <==> Score(Fraction(e, n), Weight(n), p) == 0.0
  {
    FractionBounds(e, n);
    var nr, k := n as real, Weight(n);
    var left, pp := (Fraction(e, n) - p) * (Fraction(e, n) - p), p * (1.0 - p);
    var right := k * pp;
    assert nr * right == Z2 * pp;
    Scale(nr, left, right);
  }

  /** `WilsonLower` is the smaller root, strictly inside (0, e/n): the clamp never acts. */
  lemma WilsonIsSmallerRoot(m: Math, e: int, n: int)
    requires m.Lawful() && 1 <= e <= n
    ensures WilsonLower(m, e, n) == WilsonRaw(m, e, n)
    ensures SolvesWilsonEquation(e, n, WilsonLower(m, e, n))
    ensures forall p :: SolvesWilsonEquation(e, n, p) ==> WilsonLower(m, e, n) <= p
    ensures 0.0 < WilsonLower(m, e, n) < e as real / n as real
  {
    var q, k, t, w := Fraction(e, n), Weight(n), Margin(m, e, n), WilsonRaw(m, e, n);
    FractionBounds(e, n);
    RawIsLowerRoot(m, e, n);
    LowerRootBounds(q, k, t, w);
    ScoreIsWilsonEquation(e, n, w);
    forall p | SolvesWilsonEquation(e, n, p) ensures w <= p {
      ScoreIsWilsonEquation(e, n, p);
      LowerRootIsLeast(q, k, t, w, p);
    }
  }

  // ----- Monotonicity

  /** The score with its fractions cleared. */
  function Cleared(e: real, n: real, z2: real, p: real): real {
    (e - n * p) * (e - n * p) - z2 * (n * (p * (1.0 - p)))
  }

  lemma ClearedIsScaled(e: real, n: real, z2: real, q: real, k: real, p: real)
    requires n * q == e && n * k == z2
    ensures Cleared(e, n, z2, p) == (n * n) * Score(q, k, p)
  {
    var d, nn, pp := q - p, n * n, p * (1.0 - p);
    assert n * d == e - n * p;
    assert (n * d) * (n * d) == nn * (d * d);
    assert z2 * (n * pp) == nn * (k * pp);
  }

  lemma ScaledSign(e: real, n: real, nn: real, z2: real, q: real, k: real, p: real)
    requires n > 0.0 && nn > 0.0 && nn == n * n && n * q == e && n * k == z2
    ensures Cleared(e, n, z2, p) > 0.0 <==> Score(q, k, p) > 0.0
    ensures Cleared(e, n, z2, p) == 0.0 <==> Score(q, k, p) == 0.0
    ensures n * p < e <==> p < q
  {
    var score := Score(q, k, p);
    ClearedIsScaled(e, n, z2, q, k, p);
    Scale(nn, 0.0, score);
    Scale(n, p, q);
  }

  lemma ClearedSign(e: int, n: int, p: real)
    requires 1 <= e <= n
    ensures Cleared(e as real, n as real, Z2, p) > 0.0 <==> Score(Fraction(e, n), Weight(n), p) > 0.0
    ensures Cleared(e as real, n as real, Z2, p) == 0.0 <==> Score(Fraction(e, n), Weight(n), p) == 0.0
    ensures n as real * p < e as real <==> p < Fraction(e, n)
  {
    FractionBounds(e, n);
    var nr, q, k := n as real, Fraction(e, n), Weight(n);
    assert nr * nr > 0.0;
    ScaledSign(e as real, nr, nr * nr, Z2, q, k, p);
  }

  lemma TimesSign(a: real, b: real)
    requires a > 0.0 && b > 0.0
    ensures Times(a, b) > 0.0
  {
  }

  lemma TimesOrder(c: real, a: real, b: real)
    requires c > 0.0
    ensures a < b <==> Times(c, a) < Times(c, b)
  {
    Scale(c, a, b);
  }

  lemma TimesCommutes(a: real, b: real)
    ensures Times(a, b) == Times(b, a)
  {
  }

  lemma Distribute(v: real, a: real, b: real)
    ensures Times(v, a - b) == Times(v, a) - Times(v, b)
  {
  }

  lemma SquareOfSum(d: real, v: real)
    ensures Times(d + v, d + v) == Times(d, d) + Times(v, 2.0 * d + v)
  {
  }

  lemma Complement(n: real, w: real)
    ensures Times(n, 1.0 - w) == n - Times(n, w) && Times(n + 1.0, w) == Times(n, w) + w
  {
  }

  /** The second term of the cleared score, and that term with n one larger, as products of the parts. */
  lemma SecondTerm(n: real, w: real, v: real, z2: real)
    ensures var nv, zw := Times(n, v), Times(z2, w);
      && Times(z2, Times(n, Times(w, v))) == Times(nv, zw)
      && Times(z2, Times(n + 1.0, Times(w, v))) == Times(nv, zw) + Times(v, zw)
  {
    var wv := w * v;
    assert n * wv == w * (n * v);
    assert z2 * (w * (n * v)) == (z2 * w) * (n * v);
    assert z2 * wv == (z2 * w) * v;
    assert (n + 1.0) * wv == n * wv + wv;
    assert z2 * (n * wv + wv) == z2 * (n * wv) + z2 * wv;
  }

  /** From d * d == nv * zw and d <= nv: the other factor is at most d. */
  lemma SmallFactor(d: real, nv: real, zw: real)
    requires 0.0 < d <= nv && Times(nv, zw) == Times(d, d)
    ensures zw <= d
  {
    hide Times;
    TimesOrder(d, nv, d);
    TimesOrder(nv, d, zw);
    TimesCommutes(d, nv);
  }

  lemma ClearedOf(e: real, n: real, z2: real, w: real)
    ensures var gap := e - Times(n, w);
      Cleared(e, n, z2, w) == Times(gap, gap) - Times(z2, Times(n, Times(w, 1.0 - w)))
  {
  }

  /** The square of the gap grows by more than the second term does. */
  lemma GapOutgrows(d: real, v: real, zw: real)
    requires 0.0 < d && 0.0 < v && zw <= d
    ensures Times(d + v, d + v) > Times(d, d) + Times(v, zw)
  {
    hide Times;
    SquareOfSum(d, v);
    TimesSign(v, 2.0 * d + v - zw);
    Distribute(v, 2.0 * d + v, zw);
  }

  lemma CleanEvidenceScore(e: real, n: real, z2: real, w: real)
    requires 0.0 < e <= n && z2 > 0.0 && 0.0 < w < 1.0 && Times(n, w) < e && Cleared(e, n, z2, w) == 0.0
    ensures Times(n + 1.0, w) < e + 1.0 && Cleared(e + 1.0, n + 1.0, z2, w) > 0.0
  {
    hide Cleared, Times;
    var d, v := e - Times(n, w), 1.0 - w;
    Complement(n, w);
    SecondTerm(n, w, v, z2);
    ClearedOf(e, n, z2, w);
    SmallFactor(d, Times(n, v), Times(z2, w));
    GapOutgrows(d, v, Times(z2, w));
    ClearedOf(e + 1.0, n + 1.0, z2, w);
    assert e + 1.0 - Times(n + 1.0, w) == d + v;
  }

  lemma ContradictionScore(e: real, n: real, next: real, z2: real, w: real)
    requires 0.0 < e <= n && next == n + 1.0 && z2 > 0.0
    requires 0.0 < w < 1.0 && next * w < e && Cleared(e, next, z2, w) == 0.0
    ensures n * w < e && Cleared(e, n, z2, w) > 0.0
  {
    var d, v := e - next * w, 1.0 - w;
    assert n * w == e - d - w;
    var wv, sum := w * v, 2.0 * d + w;
    ProductSign(w, v);
    ProductSign(z2, wv);
    ProductSign(w, sum);
    var gain, drop := w * sum, z2 * wv;
    assert Cleared(e, n, z2, w) == Cleared(e, next, z2, w) + gain + drop by {
      assert e - n * w == d + w;
      assert (d + w) * (d + w) == d * d + gain;
      assert z2 * (next * wv) == z2 * (n * wv) + drop;
    }
  }

  lemma ClearedAtWilson(m: Math, e: int, n: int)
    requires m.Lawful() && 1 <= e <= n
    ensures var w := WilsonLower(m, e, n);
      0.0 < w < 1.0 && n as real * w < e as real && Cleared(e as real, n as real, Z2, w) == 0.0
  {
    var w := WilsonLower(m, e, n);
    WilsonIsSmallerRoot(m, e, n);
    FractionBounds(e, n);
    ScoreIsWilsonEquation(e, n, w);
    ClearedSign(e, n, w);
  }

  /** `p` lies left of e/n where the score is still positive. */
  ghost predicate BeforeRoot(e: real, n: real, p: real) {
    n * p < e && Cleared(e, n, Z2, p) > 0.0
  }

  lemma BeforeRootIsBelow(m: Math, e: int, n: int, p: real)
    requires m.Lawful() && 1 <= e <= n && BeforeRoot(e as real, n as real, p)
    ensures p < WilsonLower(m, e, n)
  {
    ClearedSign(e, n, p);
    WilsonIsSmallerRoot(m, e, n);
    RawIsLowerRoot(m, e, n);
    BelowLowerRoot(Fraction(e, n), Weight(n), Margin(m, e, n), WilsonRaw(m, e, n), p);
  }

  lemma WilsonBeforeCleanRoot(m: Math, e: int, n: int)
    requires m.Lawful() && 1 <= e <= n
    ensures BeforeRoot(e as real + 1.0, n as real + 1.0, WilsonLower(m, e, n))
  {
    var er, nr, w := e as real, n as real, WilsonLower(m, e, n);
    ClearedAtWilson(m, e, n);
    CleanEvidenceScore(er, nr, Z2, w);
  }

  lemma ContradictedBeforeRoot(m: Math, e: int, n: int)
    requires m.Lawful() && 1 <= e <= n
    ensures BeforeRoot(e as real, n as real, WilsonLower(m, e, n + 1))
  {
    var er, nr, w := e as real, n as real, WilsonLower(m, e, n + 1);
    ClearedAtWilson(m, e, n + 1);
    ContradictionScore(er, nr, (n + 1) as real, Z2, w);
  }

  /** One more clean piece of evidence strictly raises the bound. */
  lemma EvidenceRaisesWilson(m: Math, e: int, n: int)
    requires m.Lawful() && 1 <= e <= n
    ensures WilsonLower(m, e, n) < WilsonLower(m, e + 1, n + 1)
  {
    WilsonBeforeCleanRoot(m, e, n);
    assert (e + 1) as real == e as real + 1.0 && (n + 1) as real == n as real + 1.0;
    BeforeRootIsBelow(m, e + 1, n + 1, WilsonLower(m, e, n));
  }

  /** One more contradiction strictly lowers the bound. */
  lemma ContradictionLowersWilson(m: Math, e: int, n: int)
    requires m.Lawful() && 1 <= e <= n
    ensures WilsonLower(m, e, n + 1) < WilsonLower(m, e, n)
  {
    ContradictedBeforeRoot(m, e, n);
    BeforeRootIsBelow(m, e, n, WilsonLower(m, e, n + 1));
  }

  // ----- The promotion threshold

  /** When a candidate is ready for review, without reference to the confidence number. */
  predicate Ready(evidence: int, contradicting: int, distinctCases: nat) {
    contradicting == 0 && (evidence >= 4 || (evidence == 3 && distinctCases >= 2))
  }

  lemma UncontradictedWilson(m: Math, e: int)
    requires m.Lawful() && e >= 1
    ensures (e as real + Z2) * WilsonLower(m, e, e) == e as real
  {
    WilsonIsSmallerRoot(m, e, e);
    RawIsLowerRoot(m, e, e);
    FractionBounds(e, e);
    var n, k, t, w := e as real, Weight(e), Margin(m, e, e), WilsonRaw(m, e, e);
    assert Fraction(e, e) == 1.0 by {
      Scale(n, Fraction(e, e), 1.0);
    }
    SquareGap(t, k / 2.0, 0.0);
    SquareGap(k / 2.0, t, 0.0);
    assert (1.0 + k) * w == 1.0;
    assert n * ((1.0 + k) * w) == (n + Z2) * w;
  }

  /** The status written from a candidate seen just now, exactly: age plays no part. */
  lemma StatusThreshold(m: Math, evidence: int, contradicting: nat, distinctCases: nat, neverSeen: bool)
    requires m.Lawful() && evidence >= 1
    ensures CandidateStatus(CandidateConfidence(m, evidence, contradicting, distinctCases, 1, neverSeen, 0.0),
      evidence, contradicting)
      == if Ready(evidence, contradicting, distinctCases) then UnderReview else Candidate
  {
    if contradicting == 0 && evidence >= 3 {
      UncontradictedWilson(m, evidence);
      WilsonIsSmallerRoot(m, evidence, evidence);
      assert RecencyFactor(m, neverSeen, 0.0) == 1.0;
      var w, f := WilsonLower(m, evidence, evidence), ScopeConsistencyFactor(distinctCases, 1);
      assert evidence as real / evidence as real == 1.0;
      assert 0.8 <= f <= 1.0;
      Shrink(w, f);
      if evidence == 3 {
        assert w == 3.0 / 4.6384;
        if distinctCases >= 2 {
          Scale(w, f, 0.9);
        }
      } else {
        assert w >= 4.0 / 5.6384 by {
          var n := evidence as real;
          assert w * Z2 == n * (1.0 - w);
          var u := 1.0 - w;
          Scale(u, n, 4.0);
        }
        Scale(w, f, 0.8);
      }
    }
  }

  /** A contradicted candidate is never under review, whatever its confidence. */
  lemma ContradictedIsCandidate(confidence: real, evidence: int, contradicting: int)
    requires contradicting > 0
    ensures CandidateStatus(confidence, evidence, contradicting) == Candidate
  {
  }

  /** Factors in (0, 1] are not clamped. */
  lemma CombineOf(x: real, r: real, f: real)
    requires 0.0 < Times(Times(x, r), f) <= 1.0
    ensures Combine(x, r, f) == Times(Times(x, r), f)
  {
  }

  /** A smaller positive factor gives a smaller positive product. */
  lemma ScaledOrder(x: real, y: real, r: real)
    requires 0.0 < x < y <= 1.0 && 0.0 < r <= 1.0
    ensures 0.0 < Times(x, r) < Times(y, r) <= 1.0
  {
    Shrink(x, r);
    Shrink(y, r);
    Scale(r, x, y);
  }

  lemma OrderedProduct(x: real, y: real, r: real, f: real)
    requires 0.0 < x < y <= 1.0 && 0.0 < r <= 1.0 && 0.0 < f <= 1.0
    ensures Combine(x, r, f) < Combine(y, r, f)
  {
    hide Times;
    ScaledOrder(x, y, r);
    ScaledOrder(Times(x, r), Times(y, r), f);
    CombineOf(x, r, f);
    CombineOf(y, r, f);
  }

  lemma FactorBounds(m: Math, cases: nat, tenants: nat, neverSeen: bool, age: real)
    requires m.Lawful()
    ensures 0.0 < RecencyFactor(m, neverSeen, age) <= 1.0
    ensures 0.0 < ScopeConsistencyFactor(cases, tenants) <= 1.0
  {
    if age >= 0.0 {
      QuotientSign(age, RECENCY_HALF_LIFE_DAYS);
      assert -age / RECENCY_HALF_LIFE_DAYS == -(age / RECENCY_HALF_LIFE_DAYS);
    }
  }

  // ----- The two factors

  lemma DecayOfSum(m: Math, a: real, b: real)
    requires m.Exponential()
    ensures Decay(m, a + b) == Times(Decay(m, a), Decay(m, b))
  {
    assert -(a + b) / RECENCY_HALF_LIFE_DAYS == -a / RECENCY_HALF_LIFE_DAYS + -b / RECENCY_HALF_LIFE_DAYS;
  }

  lemma DecayBounds(m: Math, a: real)
    requires m.Lawful() && a >= 0.0
    ensures 0.0 < Decay(m, a) <= 1.0
  {
    QuotientSign(a, RECENCY_HALF_LIFE_DAYS);
    assert -a / RECENCY_HALF_LIFE_DAYS == -(a / RECENCY_HALF_LIFE_DAYS);
  }

  lemma DecayAt(m: Math)
    requires m.Lawful()
    ensures Decay(m, 0.0) == 1.0 && Decay(m, 30.0) == m.exp(-1.0)
  {
    assert -0.0 / RECENCY_HALF_LIFE_DAYS == 0.0 && -30.0 / RECENCY_HALF_LIFE_DAYS == -1.0;
  }

  /** A product of factors in (0, 1] is at most each of them. */
  lemma ProductFalls(x: real, y: real)
    requires 0.0 < x <= 1.0 && 0.0 < y <= 1.0
    ensures 0.0 < Times(x, y) <= x && Times(x, y) <= y
  {
    hide Times;
    TimesShrinks(x, y);
    TimesShrinks(y, x);
    TimesCommutes(x, y);
  }

  lemma TimesShrinks(x: real, r: real)
    requires x > 0.0 && 0.0 < r <= 1.0
    ensures 0.0 < Times(x, r) <= x
  {
    Shrink(x, r);
  }

  /** A candidate just seen, or never, is fully recent; with age the factor only falls, each stretch of time by
   *  the same proportion, to 1/e in thirty days, and never below a tenth.
   */
  lemma RecencyFalls(m: Math, a: real, b: real)
    requires m.Lawful() && m.Exponential() && a >= 0.0 && b >= 0.0
    ensures RecencyFactor(m, true, a) == 1.0 && RecencyFactor(m, false, 0.0) == 1.0
    ensures a > 0.0 ==> RecencyFactor(m, false, -a) == 1.0
    ensures 0.1 <= RecencyFactor(m, false, a + b) <= RecencyFactor(m, false, a) <= 1.0
    ensures RecencyFactor(m, false, a + b) > 0.1 ==>
      RecencyFactor(m, false, a + b) == Times(RecencyFactor(m, false, a), RecencyFactor(m, false, b))
    ensures m.exp(-1.0) > 0.1 ==> RecencyFactor(m, false, 30.0) == m.exp(-1.0)
  {
    DecayAt(m);
    DecayOfSum(m, a, b);
    DecayBounds(m, a);
    DecayBounds(m, b);
    ProductFalls(Decay(m, a), Decay(m, b));
    hide Times, Decay;
    RecentForever(m, a);
    RecencyOf(m, a);
    RecencyOf(m, b);
    RecencyOf(m, a + b);
    RecencyOf(m, 0.0);
    RecencyOf(m, 30.0);
    hide RecencyFactor;
  }

  /** Without an age there is nothing to fade. */
  lemma RecentForever(m: Math, a: real)
    ensures RecencyFactor(m, true, a) == 1.0
    ensures a > 0.0 ==> RecencyFactor(m, false, -a) == 1.0
  {
  }

  lemma RecencyOf(m: Math, age: real)
    requires age >= 0.0
    ensures RecencyFactor(m, false, age) == if Decay(m, age) > RECENCY_FLOOR then Decay(m, age) else RECENCY_FLOOR
  {
  }

  /** One case in one tenant gives 0.8; every further case adds 0.1 and every further tenant 0.05, up to 1. */
  lemma ConsistencyGrows(cases: nat, tenants: nat)
    requires cases >= 1 && tenants >= 1
    ensures ScopeConsistencyFactor(1, 1) == 0.8
    ensures ScopeConsistencyFactor(0, tenants) == ScopeConsistencyFactor(1, tenants)
    ensures ScopeConsistencyFactor(cases, 0) == ScopeConsistencyFactor(cases, 1)
    ensures var f := ScopeConsistencyFactor(cases, tenants);
      && f <= 1.0
      && ScopeConsistencyFactor(cases + 1, tenants) == (if f + 0.1 < 1.0 then f + 0.1 else 1.0)
      && ScopeConsistencyFactor(cases, tenants + 1) == (if f + 0.05 < 1.0 then f + 0.05 else 1.0)
  {
    assert (cases + 1 - 1) as real == (cases - 1) as real + 1.0;
    assert (tenants + 1 - 1) as real == (tenants - 1) as real + 1.0;
  }

  /** With evidence the confidence is the product of the bound and the two factors; the clamp never acts. */
  lemma ConfidenceIsProduct(m: Math, e: int, c: nat, cases: nat, tenants: nat, neverSeen: bool, age: real)
    requires m.Lawful() && e >= 1
    ensures CandidateConfidence(m, e, c, cases, tenants, neverSeen, age) ==
      Times(Times(WilsonLower(m, e, e + c), RecencyFactor(m, neverSeen, age)), ScopeConsistencyFactor(cases, tenants))
  {
    var w, r, f := WilsonLower(m, e, e + c), RecencyFactor(m, neverSeen, age), ScopeConsistencyFactor(cases, tenants);
    WilsonIsSmallerRoot(m, e, e + c);
    FractionBounds(e, e + c);
    FactorBounds(m, cases, tenants, neverSeen, age);
    hide Times, WilsonLower, RecencyFactor, ScopeConsistencyFactor;
    assert 0.0 < w <= 1.0;
    TimesShrinks(w, r);
    TimesShrinks(Times(w, r), f);
    CombineOf(w, r, f);
  }

  /** Without evidence there is no confidence, whatever else. */
  lemma NoEvidenceNoConfidence(m: Math, e: int, c: int, cases: nat, tenants: nat, neverSeen: bool, age: real)
    requires e <= 0 || e + c <= 0
    ensures CandidateConfidence(m, e, c, cases, tenants, neverSeen, age) == 0.0
  {
    assert Times(Times(0.0, RecencyFactor(m, neverSeen, age)), ScopeConsistencyFactor(cases, tenants)) == 0.0;
  }

  /** A contradiction strictly lowers the confidence, whatever the age and the sources. */
  lemma ContradictionLowersConfidence(m: Math, e: int, c: nat, cases: nat, tenants: nat, neverSeen: bool, age: real)
    requires m.Lawful() && e >= 1
    ensures CandidateConfidence(m, e, c + 1, cases, tenants, neverSeen, age)
      < CandidateConfidence(m, e, c, cases, tenants, neverSeen, age)
  {
    ContradictionLowersWilson(m, e, e + c);
    ClearedAtWilson(m, e, e + c);
    ClearedAtWilson(m, e, e + c + 1);
    FactorBounds(m, cases, tenants, neverSeen, age);
    OrderedProduct(WilsonLower(m, e, e + c + 1), WilsonLower(m, e, e + c),
      RecencyFactor(m, neverSeen, age), ScopeConsistencyFactor(cases, tenants));
    assert e + (c + 1) == e + c + 1;
  }
}
