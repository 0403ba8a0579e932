/** The heap size that is asked of the JVM, computed in 64-bit floating point and truncated. */
module HeapSize {

  /** Rounding to a double: any function that keeps the order, leaves integers up to 2^53 alone,
      and is off by at most 2^-53 of the exact value (section 4.3.1 of IEEE 754-2019). */
  ghost predicate IsRounding(round: real -> real) {
    && (forall x, y :: x <= y ==> round(x) <= round(y))
    && (forall n: int | 0 <= n <= 9007199254740992 :: Exact(round, n))
    && (forall x | 0.0 <= x :: Near(round(x), x))
  }

  predicate Exact(round: real -> real, n: int) {
    round(n as real) == n as real
  }

  predicate Near(r: real, x: real) {
    -x <= (r - x) * 9007199254740992.0 <= x
  }

  /** XmxValueCalculator up to the rendering: int64(float64(percentage) / 100 * float64(memory)),
      for a memory that a double holds exactly. */
  function Heap(round: real -> real, percentage: nat, memory: nat): int {
    round(Ratio(round, percentage) * (memory as real)).Floor
  }

  function Ratio(round: real -> real, percentage: nat): real {
    round(round(percentage as real) / 100.0)
  }

  /** floor(percentage * memory / 100) */
  function Share(percentage: nat, memory: nat): int {
    percentage * memory / 100
  }

  lemma RatioInRange(round: real -> real, percentage: nat)
    requires IsRounding(round) && percentage <= 100
    ensures 0.0 <= Ratio(round, percentage) <= 1.0
    ensures Ratio(round, percentage) == round(percentage as real / 100.0)
  {
    assert Exact(round, 0) && Exact(round, 1) && Exact(round, percentage);
    assert 0 as real <= percentage as real / 100.0 <= 1 as real;
  }

  lemma Scaled(r: real, m: real)
    requires 0.0 <= r <= 1.0 && 0.0 <= m
    ensures 0.0 <= r * m <= m
  {
  }

  lemma InOrder(round: real -> real, x: real, y: real)
    requires IsRounding(round) && x <= y
    ensures round(x) <= round(y)
  {
  }

  lemma RoundsNear(round: real -> real, x: real)
    requires IsRounding(round) && 0.0 <= x
    ensures Near(round(x), x)
  {
  }

  lemma RoundedWithin(round: real -> real, x: real, memory: nat)
    requires IsRounding(round) && 0.0 <= x <= memory as real && memory <= 0x4_0000_0000_0000
    ensures 0 <= round(x).Floor <= memory
  {
    assert Exact(round, 0) && Exact(round, memory);
    InOrder(round, 0 as real, x);
    InOrder(round, x, memory as real);
  }

  lemma ShareOf(r: real, memory: nat) returns (x: real)
    requires 0.0 <= r <= 1.0
    ensures x == r * (memory as real) && 0.0 <= x <= memory as real
  {
    var m := memory as real;
    Scaled(r, m);
    x := r * m;
  }

  /** The JVM is never given more than the container's memory as long as the percentage is one. */
  lemma HeapFits(round: real -> real, percentage: nat, memory: nat)
    requires IsRounding(round) && percentage <= 100 && memory <= 0x4_0000_0000_0000
    ensures 0 <= Heap(round, percentage, memory) <= memory
  {
    RatioInRange(round, percentage);
    var x := ShareOf(Ratio(round, percentage), memory);
    RoundedWithin(round, x, memory);
  }

  lemma Drift(q: real, r: real, m: real, y: real)
    requires 0.0 <= q <= 1.0 && 0.0 <= r <= 1.0 && 0.0 <= m <= 1125899906842624.0
    requires Near(r, q) && Near(y, r * m)
    ensures -1.0 < y - q * m < 1.0
  {
    var k := 9007199254740992.0;
    Scaled(r, m);
    assert y - r * m <= m / k && -(m / k) <= y - r * m;
    assert r - q <= 1.0 / k && -(1.0 / k) <= r - q;
    ScaledDifference(r, q, m, k);
    assert m / k <= 0.125;
  }

  lemma ScaledDifference(r: real, q: real, m: real, k: real)
    requires 0.0 < k && 0.0 <= m && r - q <= 1.0 / k && -(1.0 / k) <= r - q
    ensures r * m - q * m <= m / k && -(m / k) <= r * m - q * m
  {
    assert (r - q) * m <= (1.0 / k) * m;
    assert -(1.0 / k) * m <= (r - q) * m;
    assert (1.0 / k) * m == m / k;
    assert (r - q) * m == r * m - q * m;
  }

  lemma ShareIsFloor(percentage: nat, memory: nat)
    ensures Share(percentage, memory) == ((percentage as real / 100.0) * memory as real).Floor
  {
    var n, x := percentage * memory, (percentage as real / 100.0) * memory as real;
    assert x * 100.0 == (percentage as real) * (memory as real) == n as real;
    assert n == 100 * (n / 100) + n % 100;
    assert (n / 100) as real <= x < (n / 100) as real + 1.0;
  }

  lemma FloorsClose(x: real, y: real)
    requires -1.0 < y - x < 1.0
    ensures -1 <= y.Floor - x.Floor <= 1
  {
  }

  lemma RoundedProduct(round: real -> real, percentage: nat, memory: nat)
    requires IsRounding(round) && percentage <= 100 && memory <= 0x4_0000_0000_0000
    ensures var q, m := percentage as real / 100.0, memory as real;
            -1.0 < round(round(q) * m) - q * m < 1.0
  {
    var q, m := percentage as real / 100.0, memory as real;
    var r := round(q);
    RatioInRange(round, percentage);
    Scaled(r, m);
    var x := r * m;
    RoundsNear(round, x);
    Drift(q, r, m, round(x));
  }

  lemma CloseToShare(y: real, percentage: nat, memory: nat)
    requires -1.0 < y - (percentage as real / 100.0) * (memory as real) < 1.0
    ensures -1 <= y.Floor - Share(percentage, memory) <= 1
  {
    var q, m := percentage as real / 100.0, memory as real;
    ShareIsFloor(percentage, memory);
    FloorsClose(q * m, y);
  }

  /** And it is off by at most one byte from the exact share. */
  lemma HeapIsExactToOne(round: real -> real, percentage: nat, memory: nat)
    requires IsRounding(round) && percentage <= 100 && memory <= 0x4_0000_0000_0000
    ensures -1 <= Heap(round, percentage, memory) - Share(percentage, memory) <= 1
  {
    RatioInRange(round, percentage);
    RoundedProduct(round, percentage, memory);
    CloseToShare(round(Ratio(round, percentage) * (memory as real)), percentage, memory);
  }

  // ---- More than the whole ----

  lemma RatioBeyondWhole(round: real -> real, percentage: nat)
    requires IsRounding(round) && 100 < percentage
    ensures Ratio(round, percentage) >= 1.01 - 1.01 / 9007199254740992.0
  {
    assert Exact(round, 101);
    InOrder(round, 101 as real, percentage as real);
    InOrder(round, 1.01, round(percentage as real) / 100.0);
    RoundsNear(round, 1.01);
  }

  lemma BeyondWhole(r: real, m: real)
    requires r >= 1.01 - 1.01 / 9007199254740992.0 && 101.0 <= m
    ensures r * m >= m + 1.0
  {
    var over := 1.01 - 1.01 / 9007199254740992.0;
    assert r * m >= over * m;
    assert (over - 1.0) * m >= (over - 1.0) * 101.0 >= 1.0;
    assert over * m == m + (over - 1.0) * m;
  }

  /** The webhook lets every positive percentage through. The heap stays inside the memory exactly
      up to 100 percent; below 101 bytes the rounding down hides an excess. */
  lemma HeapFitsUpToWhole(round: real -> real, percentage: nat, memory: nat)
    requires IsRounding(round) && 101 <= memory <= 0x4_0000_0000_0000
    ensures Heap(round, percentage, memory) <= memory <==> percentage <= 100
  {
    if percentage <= 100 {
      HeapFits(round, percentage, memory);
    } else {
      RatioBeyondWhole(round, percentage);
      var r, m := Ratio(round, percentage), memory as real;
      BeyondWhole(r, m);
      assert Exact(round, memory + 1);
      InOrder(round, (memory + 1) as real, r * m);
    }
  }
}
