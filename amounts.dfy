/** Arithmetic on amounts: the running totals and the rounded percentages.
    Amounts are whole numbers of the smallest currency unit. */
module Amounts {
  import opened Ids

  /** The total a forEach accumulates from 0, adding left to right. */
  function Sum(vs: seq<int>): (r: int)
    ensures (forall i :: 0 <= i < |vs| ==> 0 <= vs[i]) ==> r >= 0
  {
    if |vs| == 0 then 0 else Sum(vs[..|vs| - 1]) + vs[|vs| - 1]
  }

  /** Math.round(num / den) for den > 0, i.e. floor(num / den + 1/2). */
  function Round(num: int, den: int): (r: int)
    requires den > 0
    ensures r == (num as real / den as real + 0.5).Floor
  {
    HalfUpIsFloor(num, den);
    (2 * num + den) / (2 * den)
  }

  /** The whole-number percentage part makes of whole, or the sentinel -1
      when whole is not positive. */
  function Share(part: int, whole: int): (r: int)
    ensures whole <= 0 ==> r == -1
    ensures whole > 0 ==> r == ((100 * part) as real / whole as real + 0.5).Floor
  {
    if whole > 0 then Round(100 * part, whole) else -1
  }

  /** Round gives the integer nearest to num / den, a half rounded up. */
  lemma RoundIsNearest(num: int, den: int)
    requires den > 0
    ensures 2 * den * Round(num, den) <= 2 * num + den < 2 * den * (Round(num, den) + 1)
  {
    var q, r := (2 * num + den) / (2 * den), (2 * num + den) % (2 * den);
    assert 2 * num + den == 2 * den * q + r && 0 <= r < 2 * den;
  }

  /** Share is -1 for a non-positive whole and otherwise the nearest
      whole-number percentage, a half rounded up. */
  lemma ShareIsNearest(part: int, whole: int)
    ensures whole <= 0 ==> Share(part, whole) == -1
    ensures whole > 0 ==>
              2 * whole * Share(part, whole) <= 200 * part + whole < 2 * whole * (Share(part, whole) + 1)
  {
    if whole > 0 {
      RoundIsNearest(100 * part, whole);
    }
  }

  /** Deleting an entry lowers the recomputed total by exactly its amount. */
  lemma {:induction false} SumRemoveAt(vs: seq<int>, i: nat)
    requires i < |vs|
    ensures Sum(RemoveAt(vs, i)) == Sum(vs) - vs[i]
  {
    var n := |vs|;
    if i == n - 1 {
      assert RemoveAt(vs, i) == vs[..n - 1];
    } else {
      SumRemoveAt(vs[..n - 1], i);
      assert RemoveAt(vs, i) == RemoveAt(vs[..n - 1], i) + [vs[n - 1]];
      assert (RemoveAt(vs[..n - 1], i) + [vs[n - 1]])[..n - 2] == RemoveAt(vs[..n - 1], i);
    }
  }

  /** For a non-negative part the sentinel -1 appears exactly when whole <= 0. */
  lemma ShareSentinel(part: int, whole: int)
    requires part >= 0
    ensures Share(part, whole) == -1 <==> whole <= 0
  {
    ShareIsNearest(part, whole);
    if whole > 0 {
      var r := Share(part, whole);
      if r <= -1 {
        assert 2 * whole * (r + 1) <= 0 by {
          MulNonPositive(2 * whole, r + 1);
        }
      }
    }
  }

  /** A part between 0 and a positive whole is a percentage between 0 and 100. */
  lemma ShareBounds(part: int, whole: int)
    requires 0 <= part <= whole && whole > 0
    ensures 0 <= Share(part, whole) <= 100
  {
    var r, k := Share(part, whole), 2 * whole;
    ShareIsNearest(part, whole);
    assert k * 0 < k * (r + 1);
    CancelLess(k, 0, r + 1);
    assert k * r < k * 101;
    CancelLess(k, r, 101);
  }

  /** A larger part never gets a smaller percentage. */
  lemma ShareMonotone(p: int, q: int, whole: int)
    requires p <= q
    ensures Share(p, whole) <= Share(q, whole)
  {
    if whole <= 0 {
      return;
    }
    var a, b, k := Share(p, whole), Share(q, whole), 2 * whole;
    ShareIsNearest(p, whole);
    ShareIsNearest(q, whole);
    assert k * a < k * (b + 1);
    CancelLess(k, a, b + 1);
  }

  /** With non-negative expenses the overall percentage is -1 exactly when
      the income total is not positive. */
  lemma SpendSentinel(incomes: seq<int>, expenses: seq<int>)
    requires forall i :: 0 <= i < |expenses| ==> 0 <= expenses[i]
    ensures Share(Sum(expenses), Sum(incomes)) == -1 <==> Sum(incomes) <= 0
  {
    ShareSentinel(Sum(expenses), Sum(incomes));
  }

  /** With a negative part the sentinel is ambiguous: -1 also comes out of
      a positive whole. */
  lemma ShareSentinelAmbiguousForNegativePart()
    ensures Share(-1, 100) == -1
  {
  }

  /** The integer quotient (2*num + den) / (2*den) is floor(num / den + 1/2). */
  lemma HalfUpIsFloor(num: int, den: int)
    requires den > 0
    ensures (2 * num + den) / (2 * den) == (num as real / den as real + 0.5).Floor
  {
    var m, k := 2 * num + den, 2 * den;
    var q, r := m / k, m % k;
    assert m == k * q + r && 0 <= r < k;
    var y := num as real / den as real + 0.5;
    var kr, qr := k as real, q as real;
    CastMul(k, q);
    assert m as real == kr * qr + r as real;
    assert kr == 2.0 * den as real && m as real == 2.0 * num as real + den as real;
    HalfShift(num as real, den as real);
    assert kr * y == m as real;
    var rr := r as real;
    assert 0.0 <= rr < kr;
    calc {
      kr * y;
    ==
      kr * qr + rr;
    <
      kr * qr + kr;
    ==
      kr * (qr + 1.0);
    }
    RealCancel(kr, qr, y);
    RealCancel(kr, y, qr + 1.0);
    FloorIs(y, q);
  }

  lemma FloorIs(y: real, q: int)
    requires q as real <= y < q as real + 1.0
    ensures y.Floor == q
  {
  }

  lemma CastMul(a: int, b: int)
    ensures (a * b) as real == a as real * b as real
  {
  }

  lemma HalfShift(n: real, d: real)
    requires d > 0.0
    ensures (2.0 * d) * (n / d + 0.5) == 2.0 * n + d
  {
  }

  lemma RealCancel(k: real, a: real, b: real)
    requires k > 0.0
    ensures k * a <= k * b ==> a <= b
    ensures k * a < k * b ==> a < b
  {
  }

  lemma MulMonotone(k: int, a: int, b: int)
    requires k >= 0 && a <= b
    ensures k * a <= k * b
  {
  }

  lemma CancelLess(k: int, a: int, b: int)
    requires k > 0 && k * a < k * b
    ensures a < b
  {
    if b <= a {
      MulMonotone(k, b, a);
    }
  }

  lemma MulNonPositive(k: int, a: int)
    requires k >= 0 && a <= 0
    ensures k * a <= 0
  {
  }
}
