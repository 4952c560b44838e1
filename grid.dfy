/**
 * The subplot grid of the emitted figure: for n axes the script asks for a
 * grid of ceil(sqrt(n)) by round(sqrt(n)) cells. Both numbers are defined
 * here on integers: GridRows(n) is the least k with k*k >= n and
 * GridColumns(n) is the k with k*k - k < n <= k*k + k (0 when n is 0),
 * which is what rounding sqrt(n) to the nearest integer gives, since
 * sqrt(n) is never exactly halfway between two integers.
 *
 * The functions carry no postconditions of their own: their properties
 * are the lemmas below, so that the products in them stay out of every
 * proof about the emitted text that merely mentions the grid.
 */
module Grid {

  /** The least r >= k with r*r >= n, searching upwards from k. */
  function CeilSqrtFrom(n: nat, k: nat): nat
    decreases n - k
  {
    if k * k >= n then k
    else
      assert k <= k * k;
      CeilSqrtFrom(n, k + 1)
  }

  /** np.ceil(np.sqrt(n)). */
  function GridRows(n: nat): nat {
    CeilSqrtFrom(n, 0)
  }

  /** The least r >= k with n <= r*r + r, searching upwards from k. */
  function RoundSqrtFrom(n: nat, k: nat): nat
    decreases n - k
  {
    if n <= k * k + k then k
    else
      assert k <= k * k;
      RoundSqrtFrom(n, k + 1)
  }

  /** int(round(np.sqrt(n))). */
  function GridColumns(n: nat): nat {
    RoundSqrtFrom(n, 0)
  }

  lemma {:induction false} CeilSqrtFromSpec(n: nat, k: nat)
    requires k == 0 || (k - 1) * (k - 1) < n
    ensures CeilSqrtFrom(n, k) * CeilSqrtFrom(n, k) >= n
    ensures CeilSqrtFrom(n, k) == 0 || (CeilSqrtFrom(n, k) - 1) * (CeilSqrtFrom(n, k) - 1) < n
    decreases n - k
  {
    if k * k < n {
      assert k <= k * k;
      CeilSqrtFromSpec(n, k + 1);
    }
  }

  /** GridRows(n) is the least k with k*k >= n. */
  lemma GridRowsSpec(n: nat)
    ensures GridRows(n) * GridRows(n) >= n
    ensures GridRows(n) == 0 || (GridRows(n) - 1) * (GridRows(n) - 1) < n
  {
    CeilSqrtFromSpec(n, 0);
  }

  lemma {:induction false} RoundSqrtFromSpec(n: nat, k: nat)
    requires k == 0 || (k - 1) * (k - 1) + (k - 1) < n
    ensures n <= RoundSqrtFrom(n, k) * RoundSqrtFrom(n, k) + RoundSqrtFrom(n, k)
    ensures RoundSqrtFrom(n, k) == 0
            || (RoundSqrtFrom(n, k) - 1) * (RoundSqrtFrom(n, k) - 1) + (RoundSqrtFrom(n, k) - 1) < n
    decreases n - k
  {
    if n > k * k + k {
      assert k <= k * k;
      RoundSqrtFromSpec(n, k + 1);
    }
  }

  /** GridColumns(n) is the k with k*k - k < n <= k*k + k, and 0 for no axes. */
  lemma GridColumnsSpec(n: nat)
    ensures n == 0 ==> GridColumns(n) == 0
    ensures n > 0 ==> GridColumns(n) * GridColumns(n) - GridColumns(n) < n
                      <= GridColumns(n) * GridColumns(n) + GridColumns(n)
  {
    RoundSqrtFromSpec(n, 0);
    var c := GridColumns(n);
    if c > 0 {
      assert (c - 1) * (c - 1) + (c - 1) == c * c - c;
    }
  }

  lemma SquareMonotone(a: nat, b: nat)
    requires a <= b
    ensures a * a <= b * b
  {
    assert a * a <= a * b <= b * b;
  }

  /** No other k is the least with k*k >= n. */
  lemma GridRowsUnique(n: nat, k: nat)
    requires k * k >= n
    requires k == 0 || (k - 1) * (k - 1) < n
    ensures k == GridRows(n)
  {
    GridRowsSpec(n);
    var r := GridRows(n);
    if k < r {
      SquareMonotone(k, r - 1);
    } else if r < k {
      SquareMonotone(r, k - 1);
    }
  }

  lemma MulMonotone(a: nat, b: nat, x: nat, y: nat)
    requires a <= x && b <= y
    ensures a * b <= x * y
  {
    assert a * b <= x * b <= x * y;
  }

  /** No other k has k*k - k < n <= k*k + k. */
  lemma GridColumnsUnique(n: nat, k: nat)
    requires n > 0
    requires k * k - k < n <= k * k + k
    ensures k == GridColumns(n)
  {
    GridColumnsSpec(n);
    var c := GridColumns(n);
    if k < c {
      MulMonotone(k, k + 1, c - 1, c);
    } else if c < k {
      MulMonotone(c, c + 1, k - 1, k);
    }
  }

  lemma ShiftedProducts(k: nat)
    ensures (k + 1) * (k + 1) == k * k + 2 * k + 1
    ensures k > 0 ==> (k - 1) * k == k * k - k
  {
  }

  /** A rounded square root never exceeds the ceiling square root. */
  lemma RoundBelowCeil(n: nat, r: nat, c: nat)
    requires r * r >= n
    requires c * c - c < n
    ensures c <= r
  {
    if c > r {
      ShiftedProducts(c);
      MulMonotone(r, r, c - 1, c);
    }
  }

  /** The ceiling square root is at most one above the rounded one. */
  lemma CeilNextToRound(n: nat, r: nat, c: nat)
    requires r == 0 || (r - 1) * (r - 1) < n
    requires n <= c * c + c
    ensures r <= c + 1
  {
    if c + 1 < r {
      ShiftedProducts(c);
      MulMonotone(c + 1, c + 1, r - 1, r - 1);
    }
  }

  /** The column count is the row count or one less. */
  lemma ColumnsNextToRows(n: nat)
    ensures GridColumns(n) == GridRows(n) || GridColumns(n) + 1 == GridRows(n)
  {
    GridRowsSpec(n);
    GridColumnsSpec(n);
    if n > 0 {
      RoundBelowCeil(n, GridRows(n), GridColumns(n));
      CeilNextToRound(n, GridRows(n), GridColumns(n));
    } else {
      assert GridRows(n) == 0;
    }
  }

  /** Every 1-based subplot position 1 .. n lies inside the grid. */
  lemma GridFits(n: nat)
    ensures n <= GridRows(n) * GridColumns(n)
  {
    var r := GridRows(n);
    var c := GridColumns(n);
    ColumnsNextToRows(n);
    GridRowsSpec(n);
    GridColumnsSpec(n);
    if n > 0 {
      if c + 1 == r {
        assert r * c == c * c + c;
      } else {
        assert r * c == r * r;
      }
    }
  }
}
