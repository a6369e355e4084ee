/**
 * FrustumJitter of scenerendering.cpp: a table of 16 centred Halton(2, 3)
 * points and a four-slot active sample (previous x, y; current x, y) that is
 * rotated once per frame.
 */
module Jitter {
  import opened Vectors

  /** The radical inverse of i in base p: the base-p digits of i mirrored behind the point. */
  function Halton(p: nat, i: nat): real
    requires p >= 2
    decreases i
  {
    if i == 0 then 0.0 else ((i % p) as real + Halton(p, i / p)) / (p as real)
  }

  /** Entry j of the table InitializeHalton_2_3 fills: x and y of point j / 2, centred on 0. */
  function TableEntry(j: nat): real
  {
    if j % 2 == 0 then Halton(2, j / 2 + 1) - 0.5 else Halton(3, j / 2 + 1) - 0.5
  }

  /** The index step of GetHaltonJitter. */
  function NextIndex(i: int): int
  {
    (i + 2) % 32
  }

  /** The index after k calls of GetHaltonJitter. */
  function IndexAfter(i: int, k: nat): int
  {
    if k == 0 then i else NextIndex(IndexAfter(i, k - 1))
  }

  /** A radical inverse is a fraction in [0, 1), and it is 0 exactly for index 0. */
  lemma {:induction false} HaltonRange(p: nat, i: nat)
    requires p >= 2
    ensures 0.0 <= Halton(p, i) < 1.0
    ensures Halton(p, i) == 0.0 <==> i == 0
    decreases i
  {
    if i > 0 {
      DigitSplit(p, i);
      HaltonRange(p, i / p);
      var d := (i % p) as real;
      var h := Halton(p, i / p);
      assert Halton(p, i) == (d + h) / (p as real);
      DigitFraction(d, h, p as real);
    }
  }

  /** The last base-p digit of i and the rest of i. */
  lemma DigitSplit(p: nat, i: nat)
    requires p >= 2 && i > 0
    ensures 0 <= i % p < p && i / p < i
    ensures i == (i / p) * p + i % p
    ensures i % p == 0 ==> i / p > 0
  {
  }

  /** Dropping the last base-p digit makes i smaller. */
  lemma Shrinks(p: nat, i: nat)
    requires p >= 2 && i > 0
    ensures 0 <= i / p < i
  {
  }

  /** A digit below p followed by a fraction, over p, is a fraction, and 0 only when both are 0. */
  lemma DigitFraction(d: real, h: real, p: real)
    requires 0.0 <= d <= p - 1.0 && 0.0 <= h < 1.0
    ensures 0.0 <= (d + h) / p < 1.0
    ensures (d + h) / p == 0.0 <==> d == 0.0 && h == 0.0
  {
  }

  /** Every table entry lies strictly inside (-0.5, 0.5). */
  lemma {:induction false} TableEntryRange(j: nat)
    ensures -0.5 < TableEntry(j) < 0.5
  {
    HaltonRange(2, j / 2 + 1);
    HaltonRange(3, j / 2 + 1);
  }

  /**
   * The table entries GetHaltonJitter can read (positions 0 .. 15): the first
   * eight Halton(2, 3) points, centred, x then y.
   */
  const UsedEntries: seq<real> := [
    0.0, -1.0 / 6.0, -1.0 / 4.0, 1.0 / 6.0, 1.0 / 4.0, -7.0 / 18.0, -3.0 / 8.0, -1.0 / 18.0,
    1.0 / 8.0, 5.0 / 18.0, -1.0 / 8.0, -5.0 / 18.0, 3.0 / 8.0, 1.0 / 18.0, -7.0 / 16.0, 7.0 / 18.0]

  /** The first sixteen table entries, evaluated. */
  lemma UsedPoints()
    ensures TableEntry(0) == 0.0 && TableEntry(1) == -1.0 / 6.0
    ensures TableEntry(2) == -1.0 / 4.0 && TableEntry(3) == 1.0 / 6.0
    ensures TableEntry(4) == 1.0 / 4.0 && TableEntry(5) == -7.0 / 18.0
    ensures TableEntry(6) == -3.0 / 8.0 && TableEntry(7) == -1.0 / 18.0
    ensures TableEntry(8) == 1.0 / 8.0 && TableEntry(9) == 5.0 / 18.0
    ensures TableEntry(10) == -1.0 / 8.0 && TableEntry(11) == -5.0 / 18.0
    ensures TableEntry(12) == 3.0 / 8.0 && TableEntry(13) == 1.0 / 18.0
    ensures TableEntry(14) == -7.0 / 16.0 && TableEntry(15) == 7.0 / 18.0
  {
  }

  /** Entry j of the table, for a position GetHaltonJitter can read. */
  lemma {:induction false} UsedEntry(j: nat)
    requires j < 16
    ensures TableEntry(j) == UsedEntries[j]
  {
    UsedPoints();
    if j < 8 {
      if j == 0 {} else if j == 1 {} else if j == 2 {} else if j == 3 {}
      else if j == 4 {} else if j == 5 {} else if j == 6 {} else {}
    } else {
      if j == 8 {} else if j == 9 {} else if j == 10 {} else if j == 11 {}
      else if j == 12 {} else if j == 13 {} else if j == 14 {} else {}
    }
  }

  /** The 8 points GetHaltonJitter reads have pairwise distinct x and pairwise distinct y. */
  lemma {:induction false} UsedPointsDistinct(j: nat, k: nat)
    requires j < 16 && k < 16 && j != k && j % 2 == k % 2
    ensures TableEntry(j) != TableEntry(k)
  {
    UsedEntry(j);
    UsedEntry(k);
    UsedEntriesDistinct(j, k);
  }

  /** The sixteen used entries differ within each coordinate. */
  lemma {:induction false} UsedEntriesDistinct(j: nat, k: nat)
    requires j < 16 && k < 16 && j != k && j % 2 == k % 2
    ensures UsedEntries[j] != UsedEntries[k]
  {
    var u := UsedEntries;
    if j % 2 == 0 {
      assert j in {0, 2, 4, 6, 8, 10, 12, 14} && k in {0, 2, 4, 6, 8, 10, 12, 14};
      assert u[0] != u[2] && u[0] != u[4] && u[0] != u[6] && u[0] != u[8] && u[0] != u[10] && u[0] != u[12] && u[0] != u[14];
      assert u[2] != u[4] && u[2] != u[6] && u[2] != u[8] && u[2] != u[10] && u[2] != u[12] && u[2] != u[14];
      assert u[4] != u[6] && u[4] != u[8] && u[4] != u[10] && u[4] != u[12] && u[4] != u[14];
      assert u[6] != u[8] && u[6] != u[10] && u[6] != u[12] && u[6] != u[14];
      assert u[8] != u[10] && u[8] != u[12] && u[8] != u[14];
      assert u[10] != u[12] && u[10] != u[14] && u[12] != u[14];
    } else {
      assert j in {1, 3, 5, 7, 9, 11, 13, 15} && k in {1, 3, 5, 7, 9, 11, 13, 15};
      assert u[1] != u[3] && u[1] != u[5] && u[1] != u[7] && u[1] != u[9] && u[1] != u[11] && u[1] != u[13] && u[1] != u[15];
      assert u[3] != u[5] && u[3] != u[7] && u[3] != u[9] && u[3] != u[11] && u[3] != u[13] && u[3] != u[15];
      assert u[5] != u[7] && u[5] != u[9] && u[5] != u[11] && u[5] != u[13] && u[5] != u[15];
      assert u[7] != u[9] && u[7] != u[11] && u[7] != u[13] && u[7] != u[15];
      assert u[9] != u[11] && u[9] != u[13] && u[9] != u[15];
      assert u[11] != u[13] && u[11] != u[15] && u[13] != u[15];
    }
  }

  /** k steps of the index add 2k modulo 32. */
  lemma {:induction false} IndexAfterSteps(i: int, k: nat)
    requires 0 <= i < 32
    ensures IndexAfter(i, k) == (i + 2 * k) % 32
  {
    if k > 0 {
      IndexAfterSteps(i, k - 1);
    }
  }

  /** y divided by 32 leaves quotient q and remainder r. */
  lemma Mod32(y: int, q: int, r: int)
    requires y == 32 * q + r && 0 <= r < 32
    ensures y % 32 == r
  {
  }

  /** y divided by 16 leaves quotient q and remainder r. */
  lemma Mod16(y: int, q: int, r: int)
    requires y == 16 * q + r && 0 <= r < 16
    ensures y % 16 == r
  {
  }

  /** y divided by 8 leaves quotient q and remainder r. */
  lemma Mod8(y: int, q: int, r: int)
    requires y == 8 * q + r && 0 <= r < 8
    ensures y % 8 == r
  {
  }

  /** y divided by 2 leaves quotient q and remainder r. */
  lemma Mod2(y: int, q: int, r: int)
    requires y == 2 * q + r && 0 <= r < 2
    ensures y % 2 == r
  {
  }

  /** a calls followed by b calls are a + b calls. */
  lemma {:induction false} IndexAfterCompose(i: int, a: nat, b: nat)
    requires 0 <= i < 32
    ensures 0 <= IndexAfter(i, a) < 32
    ensures IndexAfter(IndexAfter(i, a), b) == IndexAfter(i, a + b)
  {
    IndexAfterSteps(i, a);
    var x := i + 2 * a;
    var q, r := x / 32, x % 32;
    assert x == 32 * q + r;
    IndexAfterSteps(r, b);
    IndexAfterSteps(i, a + b);
    var t, s := (r + 2 * b) / 32, (r + 2 * b) % 32;
    assert r + 2 * b == 32 * t + s;
    Mod32(i + 2 * (a + b), q + t, s);
  }

  /** The index returns to its start after 16 calls, and not before. */
  lemma {:induction false} IndexPeriod(i: int)
    requires 0 <= i < 32
    ensures IndexAfter(i, 16) == i
    ensures forall k | 0 < k < 16 :: IndexAfter(i, k) != i
  {
    IndexAfterSteps(i, 16);
    Mod32(i + 2 * 16, 1, i);
    forall k | 0 < k < 16 ensures IndexAfter(i, k) != i {
      IndexAfterSteps(i, k);
      if i + 2 * k < 32 {
        Mod32(i + 2 * k, 0, i + 2 * k);
      } else {
        Mod32(i + 2 * k, 1, i + 2 * k - 32);
      }
    }
  }

  /** An index that starts even stays an even position of the table. */
  lemma {:induction false} IndexStaysEven(i: int, k: nat)
    requires 0 <= i < 32 && i % 2 == 0
    ensures 0 <= IndexAfter(i, k) < 32 && IndexAfter(i, k) % 2 == 0
  {
    IndexAfterSteps(i, k);
    var x := i + 2 * k;
    var q, r := x / 32, x % 32;
    assert x == 32 * q + r;
    var h := i / 2;
    assert i == 2 * h;
    Mod2(r, h + k - 16 * q, 0);
  }

  /** The read position after k calls: i + 2k modulo 16. */
  lemma {:induction false} ReadAt(i: int, k: nat)
    requires 0 <= i < 32
    ensures IndexAfter(i, k) % 16 == (i + 2 * k) % 16
  {
    IndexAfterSteps(i, k);
    var x := i + 2 * k;
    var q, r := x / 32, x % 32;
    assert x == 32 * q + r;
    var q', r' := r / 16, r % 16;
    assert r == 16 * q' + r';
    Mod16(x, 2 * q + q', r');
  }

  /** A shift by less than 16 changes the residue modulo 16. */
  lemma {:induction false} ShiftChangesMod16(i: int, d: int)
    requires 0 < d < 16
    ensures (i + d) % 16 != i % 16
  {
    var q, b := i / 16, i % 16;
    assert i == 16 * q + b;
    if b + d < 16 {
      Mod16(i + d, q, b + d);
    } else {
      Mod16(i + d, q + 1, b + d - 16);
    }
  }

  /** A shift by less than 8 changes the residue modulo 8. */
  lemma {:induction false} ShiftChangesMod8(i: int, d: int)
    requires 0 < d < 8
    ensures (i + d) % 8 != i % 8
  {
    var q, b := i / 8, i % 8;
    assert i == 8 * q + b;
    if b + d < 8 {
      Mod8(i + d, q, b + d);
    } else {
      Mod8(i + d, q + 1, b + d - 8);
    }
  }

  /** An even index leaves an even read position below 15, so the pair fits the loaded positions. */
  lemma {:induction false} EvenModSixteen(x: int)
    requires x >= 0 && x % 2 == 0
    ensures x % 16 < 15
  {
    var q, r := x / 16, x % 16;
    assert x == 16 * q + r;
    var h := x / 2;
    assert x == 2 * h;
    assert r == 2 * (h - 8 * q);
  }

  /**
   * GetHaltonJitter reads the pair at `index % 16`, so the read position
   * repeats after 8 calls: only the first 8 of the 16 table points are used,
   * and within those 8 calls no position repeats.
   */
  lemma {:induction false} SamplePeriodEight(i: int, k: nat)
    requires 0 <= i < 32 && i % 2 == 0
    ensures IndexAfter(i, k + 8) % 16 == IndexAfter(i, k) % 16
    ensures 0 < k < 8 ==> IndexAfter(i, k) % 16 != i % 16
    ensures IndexAfter(i, k) % 16 < 16 - 1 && IndexAfter(i, k) % 2 == 0
  {
    ReadAt(i, k + 8);
    ReadAt(i, k);
    var x := i + 2 * k;
    var q, r := x / 16, x % 16;
    assert x == 16 * q + r;
    Mod16(i + 2 * (k + 8), q + 1, r);
    IndexStaysEven(i, k);
    EvenModSixteen(IndexAfter(i, k));
    if 0 < k < 8 {
      ShiftChangesMod16(i, 2 * k);
    }
  }

  /**
   * The pair read from an even position p of the table is a whole Halton
   * point: x from base 2 and y from base 3 of the same index.
   */
  lemma {:induction false} EvenReadIsHaltonPoint(k: nat)
    ensures TableEntry(2 * k) == Halton(2, k + 1) - 0.5
    ensures TableEntry(2 * k + 1) == Halton(3, k + 1) - 0.5
  {
    var j, j' := 2 * k, 2 * k + 1;
    assert j / 2 + 1 == k + 1 && j' / 2 + 1 == k + 1;
    assert j % 2 == 0 && j' % 2 == 1;
  }

  /**
   * One turn of the HaltonSeq loop: with f' = f / p and r' = r + f' * d, the
   * remaining digits weigh f' where the unconsumed ones weighed f.
   */
  lemma LoopStep(r: real, f: real, x: real, r': real, f': real, x': real, p: real, d: real, target: real)
    requires p > 0.0 && f > 0.0 && r + f * x == target && x == (d + x') / p
    requires f' == f / p && r' == r + f' * d
    ensures f' > 0.0 && r' + f' * x' == target
  {
    assert f' * (d + x') == f * ((d + x') / p);
  }

  /** The last digit of i, over p, in front of the radical inverse of the rest. */
  lemma HaltonDigit(p: nat, i: nat)
    requires p >= 2 && i > 0
    ensures Halton(p, i) == ((i % p) as real + Halton(p, i / p)) / (p as real)
  {
  }

  class FrustumJitter {
    /** points_Halton_2_3_x16: filled once by the constructor, only read afterwards. */
    const points: seq<real>
    /** m_currentIndex */
    var currentIndex: int
    /** (previous x, previous y, current x, current y) */
    var activeSample: Vec4

    /**
     * The table has 16 points, the positions GetHaltonJitter reads hold the
     * first eight of them, and the index is an even position in the table.
     */
    ghost predicate Valid()
      reads this
    {
      UsedLoaded() && 0 <= currentIndex < 32 && currentIndex % 2 == 0
    }

    /** The table holds the 16 centred Halton(2, 3) points. */
    ghost predicate TableFilled()
    {
      |points| == 32 && forall j | 0 <= j < 32 :: points[j] == TableEntry(j)
    }

    /** The positions GetHaltonJitter reads hold the first eight points. */
    ghost predicate UsedLoaded()
    {
      |points| == 32 && forall j | 0 <= j < 16 :: points[j] == UsedEntries[j]
    }

    constructor ()
      ensures Valid() && TableFilled()
      ensures currentIndex == 0 && activeSample == Vec4(0.0, 0.0, 0.0, 0.0)
    {
      var table := new real[16 * 2];
      InitializeHalton_2_3(table, 32);
      points := table[..];
      currentIndex := 0;
      activeSample := Vec4(0.0, 0.0, 0.0, 0.0);
      new;
      forall j | 0 <= j < 16
        ensures points[j] == UsedEntries[j]
      {
        UsedEntry(j);
      }
    }

    /** The radical inverse by repeated division, as the source computes it. */
    static method HaltonSeq(prime: nat, index: nat) returns (r: real)
      requires prime >= 2
      ensures r == Halton(prime, index)
      ensures 0.0 <= r < 1.0 && (r == 0.0 <==> index == 0)
    {
      r := 0.0;
      var f := 1.0;
      var i: nat := index;
      ghost var rest := Halton(prime, index);
      while i > 0
        invariant f > 0.0 && rest == Halton(prime, i)
        invariant r + f * rest == Halton(prime, index)
        decreases i
      {
        Shrinks(prime, i);
        var d := (i % prime) as real;
        ghost var rest0, f0, r0 := rest, f, r;
        HaltonDigit(prime, i);
        f := f / prime as real;
        r := r + f * d;
        i := i / prime;
        rest := Halton(prime, i);
        LoopStep(r0, f0, rest0, r, f, rest, prime as real, d, Halton(prime, index));
      }
      HaltonRange(prime, index);
    }

    /** Fills table[0 .. len / 2 * 2) with centred base-2 and base-3 points. */
    static method InitializeHalton_2_3(table: array<real>, len: int)
      requires 0 <= len <= table.Length
      modifies table
      ensures forall j | 0 <= j < len / 2 * 2 :: table[j] == TableEntry(j)
      ensures forall j | len / 2 * 2 <= j < table.Length :: table[j] == old(table[j])
    {
      var i, n := 0, len / 2;
      while i != n
        invariant 0 <= i <= n
        invariant forall j | 0 <= j < 2 * i :: table[j] == TableEntry(j)
        invariant forall j | 2 * i <= j < table.Length :: table[j] == old(table[j])
      {
        var u := HaltonSeq(2, i + 1);
        var v := HaltonSeq(3, i + 1);
        u := u - 0.5;
        v := v - 0.5;
        table[2 * i + 0] := u;
        table[2 * i + 1] := v;
        EvenReadIsHaltonPoint(i);
        i := i + 1;
      }
    }

    /**
     * Moves the current pair into the previous slots, loads the pair at
     * `index % 16` as the new current pair and advances the index by 2
     * modulo 32. Returns the previous pair.
     */
    method GetHaltonJitter(index: nat) returns (sample: Vec2)
      requires Valid()
      modifies this`currentIndex, this`activeSample
      ensures Valid()
      ensures sample == Vec2(old(activeSample).z, old(activeSample).w)
      ensures activeSample == Vec4(old(activeSample).z, old(activeSample).w, points[index % 16], points[index % 16 + 1])
      ensures currentIndex == NextIndex(old(currentIndex))
    {
      activeSample := activeSample.(x := activeSample.z);
      activeSample := activeSample.(y := activeSample.w);
      activeSample := activeSample.(z := points[index % 16]);
      activeSample := activeSample.(w := points[(index % 16) + 1]);
      currentIndex := (currentIndex + 2) % 32;
      sample := Vec2(activeSample.x, activeSample.y);
    }
  }
}
