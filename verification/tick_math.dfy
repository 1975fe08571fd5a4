/**
 * Fixed-point tick math and liquidity amounts (src/tick-math.ts).
 *
 * All arithmetic is exact on unbounded integers. Where the source relies on the
 * host's BigInt semantics the model spells them out: `rightShift(n)` on a
 * non-negative value is floor division by 2^n, and BigInt `div` truncates toward
 * zero (`TDiv`).
 */
module TickMath {
  import opened Helpers

  const MIN_TICK: int := -887272
  const MAX_TICK: int := 887272

  /** 2^96 and 2^128 */
  const Q96: nat := 0x1_0000_0000_0000_0000_0000_0000
  const Q128: nat := 0x1_0000_0000_0000_0000_0000_0000_0000_0000
  /** 2^32, the Q128 -> Q96 shift */
  const Q32: nat := 0x1_0000_0000
  /** type(uint256).max */
  const MAX_UINT256: nat := 115792089237316195423570985008687907853269984665640564039457584007913129639935

  /**
   * The 20 magic Q128 constants: entry i is used when bit i of |tick| is set.
   * Entry 0 is the starting ratio itself (bit 0), entries 1..19 multiply.
   */
  const MAGIC: seq<nat> := [
    340265354078544963557816517032075149313,
    340248342086729790484326174814286782778,
    340214320654664324051920982716015181260,
    340146287995602323631171512101879684304,
    340010263488231146823593991679159461444,
    339738377640345403697157401104375502016,
    339195258003219555707034227454543997025,
    338111622100601834656805679988414885971,
    335954724994790223023589805789778977700,
    331682121138379247127172139078559817300,
    323299236684853023288211250268160618739,
    307163716377032989948697243942600083929,
    277268403626896220162999269216087595045,
    225923453940442621947126027127485391333,
    149997214084966997727330242082538205943,
    66119101136024775622716233608466517926,
    12847376061809297530290974190478138313,
    485053260817066172746253684029974020,
    691415978906521570653435304214168,
    1404880482679654955896180642
  ]

  /** The masks 0x1, 0x2, ..., 0x80000 checked against |tick|. */
  const MASKS: seq<nat> := [
    0x1, 0x2, 0x4, 0x8, 0x10, 0x20, 0x40, 0x80, 0x100, 0x200,
    0x400, 0x800, 0x1000, 0x2000, 0x4000, 0x8000, 0x10000, 0x20000, 0x40000, 0x80000
  ]

  /** `(absTick & MASKS[i]) != 0` for a non-negative absTick */
  predicate BitSet(absTick: nat, i: nat)
    requires i < 20
  {
    (absTick / MASKS[i]) % 2 == 1
  }

  /** `ratio.times(c).rightShift(128)` */
  function MulShift(ratio: nat, c: nat): nat
  {
    ratio * c / Q128
  }

  /** Every magic constant is strictly below 2^128, so a step never grows the ratio. */
  lemma MagicBelowQ128(i: nat)
    requires i < 20
    ensures 0 < MAGIC[i] < Q128
  {
  }

  /** x * k < y * k with k > 0 gives x < y. */
  lemma LessCancel(x: int, y: int, k: int)
    requires k > 0 && x * k < y * k
    ensures x < y
  {
    assert (y - x) * k == y * k - x * k;
  }

  /** a < b * q  ==>  a / b < q */
  lemma DivBelow(a: nat, b: nat, q: nat)
    requires b > 0 && a < b * q
    ensures a / b < q
  {
    assert (a / b) * b <= a;
    LessCancel(a / b, q, b);
  }

  lemma DivMonotone(a: nat, b: nat, d: nat)
    requires a <= b && d > 0
    ensures a / d <= b / d
  {
    assert (a / d) * d <= a;
    assert b < (b / d + 1) * d;
    LessCancel(a / d, b / d + 1, d);
  }

  /** b * q <= a  ==>  q <= a / b */
  lemma AtLeastQuotient(a: nat, b: nat, q: nat)
    requires b > 0 && b * q <= a
    ensures q <= a / b
  {
    assert a < (a / b + 1) * b;
    LessCancel(q, a / b + 1, b);
  }

  lemma MulLe(a: nat, b: nat, c: nat, d: nat)
    requires a <= b && c <= d
    ensures a * c <= b * d
  {
    assert b * d - a * c == b * (d - c) + (b - a) * c;
  }

  /** Multiplying by c < q and dividing by q never grows a value, and shrinks a positive one. */
  lemma ScaleDownShrinks(r: nat, c: nat, q: nat)
    requires c < q
    ensures r * c / q <= r
    ensures r > 0 ==> r * c / q < r
  {
    MulLe(r, r, c, q - 1);
    assert r * (q - 1) == r * q - r;
    if r > 0 {
      DivBelow(r * c, q, r);
    } else {
      assert r * c == 0;
    }
  }

  lemma MulShiftShrinks(ratio: nat, c: nat)
    requires c < Q128
    ensures MulShift(ratio, c) <= ratio
    ensures ratio > 0 ==> MulShift(ratio, c) < ratio
  {
    ScaleDownShrinks(ratio, c, Q128);
  }

  lemma MulShiftMonotone(r1: nat, r2: nat, c: nat)
    requires r1 <= r2
    ensures MulShift(r1, c) <= MulShift(r2, c)
  {
    MulLe(r1, r2, c, c);
    DivMonotone(r1 * c, r2 * c, Q128);
  }

  /**
   * Lines 31-49: starting from bit `i`, multiply-and-shift by MAGIC[j] for every
   * set bit j of absTick, j = i .. 19, in increasing order.
   */
  function ApplyBits(absTick: nat, i: nat, ratio: nat): nat
    requires 1 <= i <= 20
    decreases 20 - i
  {
    if i == 20 then ratio
    else ApplyBits(absTick, i + 1, if BitSet(absTick, i) then MulShift(ratio, MAGIC[i]) else ratio)
  }

  /** Lines 25-29: the starting ratio, MAGIC[0] when bit 0 is set, else 2^128. */
  function InitialRatio(absTick: nat): nat
  {
    if BitSet(absTick, 0) then MAGIC[0] else Q128
  }

  /** The Q128 ratio for |tick| before any inversion (lines 18-49). */
  function Q128Ratio(absTick: nat): nat
  {
    ApplyBits(absTick, 1, InitialRatio(absTick))
  }

  /** The same chain with every bit set: a lower bound for all ratios. */
  function ApplyAll(i: nat, ratio: nat): nat
    requires 1 <= i <= 20
    decreases 20 - i
  {
    if i == 20 then ratio else ApplyAll(i + 1, MulShift(ratio, MAGIC[i]))
  }

  lemma {:induction false} ApplyAllMonotone(i: nat, r1: nat, r2: nat)
    requires 1 <= i <= 20 && r1 <= r2
    ensures ApplyAll(i, r1) <= ApplyAll(i, r2)
    decreases 20 - i
  {
    if i < 20 {
      MulShiftMonotone(r1, r2, MAGIC[i]);
      ApplyAllMonotone(i + 1, MulShift(r1, MAGIC[i]), MulShift(r2, MAGIC[i]));
    }
  }

  lemma {:induction false} ApplyBitsAtLeastApplyAll(absTick: nat, i: nat, ratio: nat)
    requires 1 <= i <= 20
    ensures ApplyBits(absTick, i, ratio) >= ApplyAll(i, ratio)
    decreases 20 - i
  {
    if i < 20 {
      var c := MAGIC[i];
      MagicBelowQ128(i);
      if BitSet(absTick, i) {
        ApplyBitsAtLeastApplyAll(absTick, i + 1, MulShift(ratio, c));
      } else {
        ApplyBitsAtLeastApplyAll(absTick, i + 1, ratio);
        MulShiftShrinks(ratio, c);
        ApplyAllMonotone(i + 1, MulShift(ratio, c), ratio);
      }
    }
  }

  lemma {:induction false} ApplyBitsAtMost(absTick: nat, i: nat, ratio: nat)
    requires 1 <= i <= 20
    ensures ApplyBits(absTick, i, ratio) <= ratio
    decreases 20 - i
  {
    if i < 20 {
      MagicBelowQ128(i);
      MulShiftShrinks(ratio, MAGIC[i]);
      var next := if BitSet(absTick, i) then MulShift(ratio, MAGIC[i]) else ratio;
      ApplyBitsAtMost(absTick, i + 1, next);
    }
  }

  /** With some bit in [i, 20) set, the chain strictly lowers a positive ratio. */
  lemma {:induction false} ApplyBitsBelow(absTick: nat, i: nat, j: nat, ratio: nat)
    requires 1 <= i <= j < 20 && BitSet(absTick, j) && ratio > 0
    ensures ApplyBits(absTick, i, ratio) < ratio
    decreases 20 - i
  {
    var c := MAGIC[i];
    MagicBelowQ128(i);
    MulShiftShrinks(ratio, c);
    var next := if BitSet(absTick, i) then MulShift(ratio, c) else ratio;
    assert ApplyBits(absTick, i, ratio) == ApplyBits(absTick, i + 1, next);
    if i == j {
      assert next < ratio;
      ApplyBitsAtMost(absTick, i + 1, next);
    } else if next > 0 {
      ApplyBitsBelow(absTick, i + 1, j, next);
    } else {
      ApplyBitsAtMost(absTick, i + 1, next);
    }
  }

  lemma {:induction false} ApplyBitsNoBits(absTick: nat, i: nat, ratio: nat)
    requires 1 <= i <= 20
    requires forall j :: i <= j < 20 ==> !BitSet(absTick, j)
    ensures ApplyBits(absTick, i, ratio) == ratio
    decreases 20 - i
  {
    if i < 20 {
      ApplyBitsNoBits(absTick, i + 1, ratio);
    }
  }

  /** The ratio with all twenty bits set, the smallest the chain produces. */
  const ALL_BITS_RATIO: nat := 5800441176149320

  /** The all-bits chain, evaluated step by step. */
  lemma ApplyAllValue()
    ensures ApplyAll(1, MAGIC[0]) == ALL_BITS_RATIO
  {
    ApplyAllSteps1To5();
    ApplyAllSteps6To10();
    ApplyAllSteps11To15();
    ApplyAllSteps16To19();
  }

  lemma ApplyAllSteps1To5()
    ensures ApplyAll(1, 340265354078544963557816517032075149313) == ApplyAll(6, 339212217342146842559531600927033253847)
  {
    assert MulShift(340265354078544963557816517032075149313, MAGIC[1]) == 340231330945450418515964920540021147198;
    assert MulShift(340231330945450418515964920540021147198, MAGIC[2]) == 340163294884840501567246455576441303173;
    assert MulShift(340163294884840501567246455576441303173, MAGIC[3]) == 340027263576413978334042125129128142263;
    assert MulShift(340027263576413978334042125129128142263, MAGIC[4]) == 339755364134575681238502878529008278326;
    assert MulShift(339755364134575681238502878529008278326, MAGIC[5]) == 339212217342146842559531600927033253847;
  }

  lemma ApplyAllSteps6To10()
    ensures ApplyAll(6, 339212217342146842559531600927033253847) == ApplyAll(11, 307179074178916392659402722612948179612)
  {
    assert MulShift(339212217342146842559531600927033253847, MAGIC[6]) == 338128527259088467778511436198880488164;
    assert MulShift(338128527259088467778511436198880488164, MAGIC[7]) == 335971522311117552149334092109581418674;
    assert MulShift(335971522311117552149334092109581418674, MAGIC[8]) == 331698704829854243503582989311158516586;
    assert MulShift(331698704829854243503582989311158516586, MAGIC[9]) == 323315401242583425022802937239550140918;
    assert MulShift(323315401242583425022802937239550140918, MAGIC[10]) == 307179074178916392659402722612948179612;
  }

  lemma ApplyAllSteps11To15()
    ensures ApplyAll(11, 307179074178916392659402722612948179612) == ApplyAll(16, 12848018414553970828728179856918040433)
  {
    assert MulShift(307179074178916392659402722612948179612, MAGIC[11]) == 277282266700509388632609933215391170106;
    assert MulShift(277282266700509388632609933215391170106, MAGIC[12]) == 225934749830749445986089663015556949343;
    assert MulShift(225934749830749445986089663015556949343, MAGIC[13]) == 150004713758184102711002566140788444796;
    assert MulShift(150004713758184102711002566140788444796, MAGIC[14]) == 66122407008436832627027740713496573148;
    assert MulShift(66122407008436832627027740713496573148, MAGIC[15]) == 12848018414553970828728179856918040433;
  }

  lemma ApplyAllSteps16To19()
    ensures ApplyAll(16, 12848018414553970828728179856918040433) == ApplyAll(20, 5800441176149320)
  {
    assert MulShift(12848018414553970828728179856918040433, MAGIC[16]) == 485077512873820763967752669154895175;
    assert MulShift(485077512873820763967752669154895175, MAGIC[17]) == 691450548841240133896843047535567;
    assert MulShift(691450548841240133896843047535567, MAGIC[18]) == 1404950724947776134837143967;
    assert MulShift(1404950724947776134837143967, MAGIC[19]) == 5800441176149320;
  }

  /** The Q128 ratio lies in [ALL_BITS_RATIO, 2^128], and is below 2^128 for every non-zero |tick| < 2^20. */
  lemma Q128RatioBounds(absTick: nat)
    ensures ALL_BITS_RATIO <= Q128Ratio(absTick) <= Q128
    ensures 0 < absTick < 0x100000 ==> Q128Ratio(absTick) < Q128
  {
    var init := InitialRatio(absTick);
    MagicBelowQ128(0);
    ApplyBitsAtLeastApplyAll(absTick, 1, init);
    ApplyAllMonotone(1, MAGIC[0], init);
    ApplyAllValue();
    ApplyBitsAtMost(absTick, 1, init);
    if 0 < absTick < 0x100000 {
      var j := HighestBit(absTick);
      if j >= 1 {
        ApplyBitsBelow(absTick, 1, j, init);
      }
    }
  }

  lemma DivIsOne(x: nat, m: nat)
    requires 0 < m <= x < 2 * m
    ensures x / m == 1
  {
    DivBelow(x, m, 2);
    AtLeastQuotient(x, m, 1);
  }

  /** A non-zero |tick| below 2^20 has one of its 20 low bits set: the highest one. */
  lemma HighestBit(absTick: nat) returns (j: nat)
    requires 0 < absTick < 0x100000
    ensures j < 20 && BitSet(absTick, j)
  {
    assert forall k :: 1 <= k < 20 ==> MASKS[k] == 2 * MASKS[k - 1];
    j := 19;
    while MASKS[j] > absTick
      invariant j < 20 && absTick < 2 * MASKS[j]
    {
      j := j - 1;
    }
    DivIsOne(absTick, MASKS[j]);
  }

  /** The pre-inversion Q128 ratio of a tick: it depends on |tick| only. */
  function Q128RatioAtTick(tick: int): (r: nat)
    ensures ALL_BITS_RATIO <= r <= Q128
  {
    Q128RatioBounds(Abs(tick));
    Q128Ratio(Abs(tick))
  }

  /**
   * Lines 51-56: a positive tick inverts the Q128 ratio with `uint256max / ratio`,
   * a non-positive one keeps it.
   */
  function InvertedRatio(tick: int): nat
    requires MIN_TICK <= tick <= MAX_TICK
  {
    var ratio := Q128RatioAtTick(tick);
    if tick > 0 then MAX_UINT256 / ratio else ratio
  }

  /**
   * getSqrtRatioAtTick (lines 17-62) as written: the inverted ratio shifted right by 32,
   * truncating. The price never reaches zero.
   */
  function GetSqrtRatioAtTick(tick: int): (r: nat)
    requires MIN_TICK <= tick <= MAX_TICK
    ensures IsFloorQuotient(r, InvertedRatio(tick), Q32)
    ensures r > 0
  {
    var inverted := InvertedRatio(tick);
    FloorQuotient(inverted, Q32);
    InvertedAtLeastQ32(tick);
    AtLeastQuotient(inverted, Q32, 1);
    inverted / Q32
  }

  /** The inverted ratio is never below 2^32, so the shift leaves at least 1. */
  lemma InvertedAtLeastQ32(tick: int)
    requires MIN_TICK <= tick <= MAX_TICK
    ensures Q32 <= InvertedRatio(tick)
  {
    var ratio := Q128RatioAtTick(tick);
    if tick > 0 {
      MulLe(ratio, Q128, Q32, Q32);
      assert Q128 * Q32 <= MAX_UINT256;
      AtLeastQuotient(MAX_UINT256, ratio, Q32);
    }
  }

  /** Tick 0 sets no bit, so the ratio stays 2^128 and the result is exactly 2^96. */
  lemma SqrtRatioAtTickZero()
    ensures GetSqrtRatioAtTick(0) == Q96
  {
    ApplyBitsNoBits(0, 1, Q128);
    assert InvertedRatio(0) == Q128;
  }

  /** t and -t share the pre-inversion ratio; only tick > 0 inverts. */
  lemma SqrtRatioInversion(t: int)
    requires 0 < t <= MAX_TICK
    ensures Q128RatioAtTick(t) == Q128RatioAtTick(-t)
    ensures GetSqrtRatioAtTick(-t) == Q128RatioAtTick(t) / Q32
    ensures GetSqrtRatioAtTick(t) == MAX_UINT256 / Q128RatioAtTick(-t) / Q32
  {
    assert Abs(t) == Abs(-t);
  }

  /** Non-positive ticks give at most 2^96, negative ones strictly less. */
  lemma SqrtRatioNonPositiveTick(tick: int)
    requires MIN_TICK <= tick <= 0
    ensures GetSqrtRatioAtTick(tick) <= Q96
    ensures tick < 0 ==> GetSqrtRatioAtTick(tick) < Q96
  {
    var ratio := Q128RatioAtTick(tick);
    assert InvertedRatio(tick) == ratio;
    DivMonotone(ratio, Q128, Q32);
    if tick < 0 {
      Q128RatioBounds(Abs(tick));
      DivMonotone(ratio, Q128 - 1, Q32);
    }
  }

  /** Positive ticks give at least 2^96. */
  lemma SqrtRatioPositiveTick(tick: int)
    requires 0 < tick <= MAX_TICK
    ensures GetSqrtRatioAtTick(tick) >= Q96
  {
    var ratio := Q128RatioAtTick(tick);
    assert InvertedRatio(tick) == MAX_UINT256 / ratio;
    Q128RatioBounds(Abs(tick));
    InverseAtLeastQ128(ratio);
    DivMonotone(Q128, MAX_UINT256 / ratio, Q32);
  }

  /** Dividing uint256max by a ratio below 2^128 leaves at least 2^128. */
  lemma InverseAtLeastQ128(ratio: nat)
    requires 0 < ratio <= Q128 - 1
    ensures Q128 <= MAX_UINT256 / ratio
  {
    // (Q128 + 1) * (Q128 - 1) == 2^256 - 1 == MAX_UINT256
    assert MAX_UINT256 == (Q128 + 1) * (Q128 - 1);
    MulLe(ratio, Q128 - 1, Q128 + 1, Q128 + 1);
    assert ratio * (Q128 + 1) <= MAX_UINT256;
    AtLeastQuotient(MAX_UINT256, ratio, Q128 + 1);
  }

  /**
   * The prices at t and -t are inverses: their product is at most Q96^2 and falls
   * short of it by less than one price plus twice the other, the truncation slack.
   */
  lemma SqrtRatioProductBound(t: int)
    requires 0 < t <= MAX_TICK
    ensures GetSqrtRatioAtTick(t) * GetSqrtRatioAtTick(-t) <= Q96 * Q96
    ensures GetSqrtRatioAtTick(t) * GetSqrtRatioAtTick(-t)
              >= Q96 * Q96 - GetSqrtRatioAtTick(t) - 2 * GetSqrtRatioAtTick(-t) - 1
  {
    var ratio := Q128RatioAtTick(t);
    SqrtRatioInversion(t);
    assert InvertedRatio(t) == MAX_UINT256 / ratio;
    assert InvertedRatio(-t) == ratio;
    QuotientTimesDivisor(MAX_UINT256, ratio);
    assert MAX_UINT256 < (Q96 * Q96 + 1) * (Q32 * Q32);
    var m := MAX_UINT256 / ratio;
    QuotientTimesDivisor(m, Q32);
    QuotientTimesDivisor(ratio, Q32);
    ProductBelow(m / Q32, ratio / Q32, m, ratio, Q32, Q96 * Q96 + 1);
    QuotientPlusOneAbove(MAX_UINT256, ratio);
    assert (Q96 * Q96) * (Q32 * Q32) == MAX_UINT256 + 1;
    QuotientPlusOneAbove(m, Q32);
    QuotientPlusOneAbove(ratio, Q32);
    ProductAbove(m / Q32, ratio / Q32, m, ratio, Q32, Q96 * Q96);
  }

  lemma QuotientTimesDivisor(a: nat, b: nat)
    requires b > 0
    ensures (a / b) * b <= a
  {
  }

  lemma QuotientPlusOneAbove(a: nat, b: nat)
    requires b > 0
    ensures a < (a / b + 1) * b
  {
    assert a == (a / b) * b + a % b;
  }

  /**
   * If m < (a + 1) * d and r < (b + 1) * d, and n * d^2 <= m * r + r, then
   * a * b + a + 2 * b + 2 > n.
   */
  lemma ProductAbove(a: nat, b: nat, m: nat, r: nat, d: nat, n: nat)
    requires d > 0 && m < (a + 1) * d && r < (b + 1) * d && n * (d * d) <= m * r + r
    ensures a * b + a + 2 * b + 2 > n
  {
    var x, y := (a + 1) * d, (b + 1) * d;
    MulLe(m, x, r, y);
    var k := (a + 1) * (b + 1);
    var dd := d * d;
    MulRearrange(a + 1, b + 1, d);
    AtMostSquare(d);
    MulLe(b + 1, b + 1, d, dd);
    Distribute(k, b + 1, dd);
    // n * d^2 <= m * r + r < k * d^2 + (b + 1) * d <= (k + b + 1) * d^2
    assert n * dd < (k + (b + 1)) * dd;
    LessCancel(n, k + b + 1, dd);
    Expand(a, b);
  }

  lemma AtMostSquare(d: nat)
    requires d > 0
    ensures d <= d * d
  {
    MulLe(1, d, d, d);
  }

  lemma Distribute(x: int, y: int, z: int)
    ensures (x + y) * z == x * z + y * z
  {
  }

  lemma Expand(a: int, b: int)
    ensures (a + 1) * (b + 1) == a * b + a + b + 1
  {
  }

  /** If a * d <= m and b * d <= r, and m * r < c * d^2, then a * b < c. */
  lemma ProductBelow(a: nat, b: nat, m: nat, r: nat, d: nat, c: nat)
    requires d > 0 && a * d <= m && b * d <= r && m * r < c * (d * d)
    ensures a * b < c
  {
    MulLe(a * d, m, b * d, r);
    MulRearrange(a, b, d);
    LessCancel(a * b, c, d * d);
  }

  lemma MulRearrange(a: int, b: int, d: int)
    ensures (a * b) * (d * d) == (a * d) * (b * d)
  {
  }

  /** Every bit of |tick| `n` is also a bit of `n'`. */
  predicate BitsIncluded(n: nat, n': nat)
  {
    forall j :: 0 <= j < 20 ==> BitSet(n, j) ==> BitSet(n', j)
  }

  /** More bits, and a smaller start, never give a larger chain result. */
  lemma {:induction false} ApplyBitsMonotoneInBits(n: nat, n': nat, i: nat, r: nat, r': nat)
    requires 1 <= i <= 20 && r' <= r && BitsIncluded(n, n')
    ensures ApplyBits(n', i, r') <= ApplyBits(n, i, r)
    decreases 20 - i
  {
    if i < 20 {
      var c := MAGIC[i];
      MagicBelowQ128(i);
      var next := if BitSet(n, i) then MulShift(r, c) else r;
      var next' := if BitSet(n', i) then MulShift(r', c) else r';
      if BitSet(n, i) {
        MulShiftMonotone(r', r, c);
      } else if BitSet(n', i) {
        MulShiftShrinks(r', c);
      }
      assert ApplyBits(n, i, r) == ApplyBits(n, i + 1, next);
      assert ApplyBits(n', i, r') == ApplyBits(n', i + 1, next');
      ApplyBitsMonotoneInBits(n, n', i + 1, next, next');
    }
  }

  /** A |tick| whose bits include another's has a Q128 ratio no larger. */
  lemma Q128RatioMonotoneInBits(n: nat, n': nat)
    requires BitsIncluded(n, n')
    ensures Q128Ratio(n') <= Q128Ratio(n)
  {
    MagicBelowQ128(0);
    ApplyBitsMonotoneInBits(n, n', 1, InitialRatio(n), InitialRatio(n'));
  }

  /** a / r2 <= a / r1 for 0 < r1 <= r2 */
  lemma DivAntitone(a: nat, r1: nat, r2: nat)
    requires 0 < r1 <= r2
    ensures a / r2 <= a / r1
  {
    MulLe(a / r2, a / r2, r1, r2);
    QuotientTimesDivisor(a, r2);
    AtLeastQuotient(a, r1, a / r2);
  }

  /**
   * The price grows with the tick from any non-positive tick to any non-negative one, and
   * between two ticks of the same sign when the bits of the smaller |tick| are among the
   * bits of the larger.
   */
  lemma SqrtRatioMonotoneInBits(t1: int, t2: int)
    requires MIN_TICK <= t1 <= t2 <= MAX_TICK
    requires (t1 <= 0 <= t2) || (t2 <= 0 && BitsIncluded(-t2, -t1)) || (0 <= t1 && BitsIncluded(t1, t2))
    ensures GetSqrtRatioAtTick(t1) <= GetSqrtRatioAtTick(t2)
  {
    if t1 <= 0 <= t2 {
      SqrtRatioNonPositiveTick(t1);
      if t2 == 0 {
        SqrtRatioAtTickZero();
      } else {
        SqrtRatioPositiveTick(t2);
      }
    } else if t2 < 0 {
      Q128RatioMonotoneInBits(-t2, -t1);
      assert Q128RatioAtTick(t1) <= Q128RatioAtTick(t2);
      DivMonotone(InvertedRatio(t1), InvertedRatio(t2), Q32);
    } else {
      Q128RatioMonotoneInBits(t1, t2);
      var r1, r2 := Q128RatioAtTick(t1), Q128RatioAtTick(t2);
      assert r2 <= r1;
      DivAntitone(MAX_UINT256, r2, r1);
      DivMonotone(InvertedRatio(t1), InvertedRatio(t2), Q32);
    }
  }

  /**
   * The rounding the upstream library applies on its last step:
   * `(ratio >> 32) + (ratio % 2^32 == 0 ? 0 : 1)`.
   */
  function GetSqrtRatioAtTickRoundingUp(tick: int): (r: nat)
    requires MIN_TICK <= tick <= MAX_TICK
    ensures IsCeilQuotient(r, InvertedRatio(tick), Q32)
  {
    var inverted := InvertedRatio(tick);
    CeilQuotient(inverted, Q32);
    inverted / Q32 + (if inverted % Q32 == 0 then 0 else 1)
  }

  /** `q` is the ceiling of `n / d`: `(q - 1) * d < n <= q * d`. */
  predicate IsCeilQuotient(q: int, n: int, d: int)
  {
    (q - 1) * d < n <= q * d
  }

  lemma CeilQuotient(n: int, d: int)
    requires d > 0
    ensures IsCeilQuotient(n / d + (if n % d == 0 then 0 else 1), n, d)
  {
    var q := n / d;
    assert n == q * d + n % d;
    assert (q + 1) * d == q * d + d;
    assert (q - 1) * d == q * d - d;
  }

  /** Tick 1 sets bit 0 only, so its inverted ratio is uint256max / MAGIC[0]. */
  lemma InvertedRatioAtOne()
    ensures InvertedRatio(1) == 340299380613952818054172298683778356828
  {
    forall j | 1 <= j < 20
      ensures !BitSet(1, j)
    {
      assert MASKS[j] >= 2;
      DivBelow(1, MASKS[j], 1);
    }
    ApplyBitsNoBits(1, 1, MAGIC[0]);
    assert Q128RatioAtTick(1) == MAGIC[0];
  }

  /** As written, tick 1 comes out one below the rounded-up (on-chain) value. */
  lemma SqrtRatioAtTickOneTruncates()
    ensures GetSqrtRatioAtTick(1) == 79232123823359799118286999567
    ensures GetSqrtRatioAtTickRoundingUp(1) == 79232123823359799118286999568
  {
    InvertedRatioAtOne();
  }

  /**
   * Division as the host BigInt performs it: the quotient is rounded toward zero,
   * so it agrees with floor division on non-negative operands and is odd in `a`
   * (see TDivOdd).
   */
  function TDiv(a: int, b: int): (q: int)
    requires b != 0
    ensures a >= 0 && b > 0 ==> q == a / b
  {
    if a >= 0 && b > 0 then a / b
    else if a < 0 && b < 0 then (-a) / (-b)
    else if a >= 0 then -(a / (-b))
    else -((-a) / b)
  }

  lemma TDivOdd(a: int, b: int)
    requires b != 0
    ensures TDiv(-a, b) == -TDiv(a, b)
  {
  }

  function Min(a: int, b: int): int { if a <= b then a else b }
  function Max(a: int, b: int): int { if a <= b then b else a }

  /**
   * getAmount0ForLiquidity (lines 67-93): orders the bounds, returns 0 when either is
   * non-positive, else liquidity * Q96 * (upper - lower) divided once by upper * lower.
   */
  function GetAmount0ForLiquidity(sqrtRatioA: int, sqrtRatioB: int, liquidity: int): (r: int)
    ensures Min(sqrtRatioA, sqrtRatioB) <= 0 ==> r == 0
    ensures liquidity >= 0 ==> r >= 0
    ensures liquidity >= 0 && Min(sqrtRatioA, sqrtRatioB) > 0 ==>
      var lower := Min(sqrtRatioA, sqrtRatioB);
      var upper := Max(sqrtRatioA, sqrtRatioB);
      IsFloorQuotient(r, liquidity * Q96 * (upper - lower), upper * lower)
  {
    var lower := if sqrtRatioA > sqrtRatioB then sqrtRatioB else sqrtRatioA;
    var upper := if sqrtRatioA > sqrtRatioB then sqrtRatioA else sqrtRatioB;
    if lower <= 0 || upper <= 0 then 0
    else
      var numerator := liquidity * Q96 * (upper - lower);
      var denominator := upper * lower;
      PositiveProduct(upper, lower);
      if denominator <= 0 then 0
      else
        NonNegProduct(liquidity, Q96, upper - lower);
        FloorQuotient(numerator, denominator);
        TDiv(numerator, denominator)
  }

  /** `q` is the floor of `n / d`: `q * d <= n < (q + 1) * d`. */
  predicate IsFloorQuotient(q: int, n: int, d: int)
  {
    q * d <= n < (q + 1) * d
  }

  lemma FloorQuotient(n: int, d: int)
    requires d > 0
    ensures IsFloorQuotient(n / d, n, d)
  {
    var q := n / d;
    assert n == q * d + n % d;
    assert (q + 1) * d == q * d + d;
  }

  lemma PositiveProduct(a: int, b: int)
    requires a > 0 && b > 0
    ensures a * b > 0
  {
  }

  lemma NonNegProduct(a: int, b: int, c: int)
    ensures a >= 0 && b >= 0 && c >= 0 ==> a * b * c >= 0
  {
  }

  /**
   * getAmount1ForLiquidity (lines 97-112): liquidity * (upper - lower) / Q96,
   * truncating toward zero.
   */
  function GetAmount1ForLiquidity(sqrtRatioA: int, sqrtRatioB: int, liquidity: int): (r: int)
    ensures sqrtRatioA == sqrtRatioB ==> r == 0
    ensures liquidity >= 0 ==>
      var width := Max(sqrtRatioA, sqrtRatioB) - Min(sqrtRatioA, sqrtRatioB);
      0 <= r && r * Q96 <= liquidity * width < (r + 1) * Q96
  {
    var lower := if sqrtRatioA > sqrtRatioB then sqrtRatioB else sqrtRatioA;
    var upper := if sqrtRatioA > sqrtRatioB then sqrtRatioA else sqrtRatioB;
    NonNegProduct(liquidity, upper - lower, 1);
    TDiv(liquidity * (upper - lower), Q96)
  }

  /** Both amount functions ignore the order of their two bounds. */
  lemma AmountsOrderIndependent(a: int, b: int, liquidity: int)
    ensures GetAmount0ForLiquidity(a, b, liquidity) == GetAmount0ForLiquidity(b, a, liquidity)
    ensures GetAmount1ForLiquidity(a, b, liquidity) == GetAmount1ForLiquidity(b, a, liquidity)
  {
  }

  /**
   * getAmountsForLiquidity (lines 116-146): price at or below the range holds only
   * token0, price at or above it only token1, strictly inside both.
   */
  function GetAmountsForLiquidity(sqrtPriceX96: int, sqrtRatioA: int, sqrtRatioB: int, liquidity: int): (r: seq<int>)
    ensures |r| == 2
    ensures var lower := Min(sqrtRatioA, sqrtRatioB);
            var upper := Max(sqrtRatioA, sqrtRatioB);
            && (sqrtPriceX96 <= lower ==>
                  r[0] == GetAmount0ForLiquidity(lower, upper, liquidity) && r[1] == 0)
            && (lower < sqrtPriceX96 < upper ==>
                  r[0] == GetAmount0ForLiquidity(sqrtPriceX96, upper, liquidity)
                  && r[1] == GetAmount1ForLiquidity(lower, sqrtPriceX96, liquidity))
            && (lower < sqrtPriceX96 && upper <= sqrtPriceX96 ==>
                  r[0] == 0 && r[1] == GetAmount1ForLiquidity(lower, upper, liquidity))
  {
    var lower := if sqrtRatioA > sqrtRatioB then sqrtRatioB else sqrtRatioA;
    var upper := if sqrtRatioA > sqrtRatioB then sqrtRatioA else sqrtRatioB;
    if sqrtPriceX96 <= lower then
      [GetAmount0ForLiquidity(lower, upper, liquidity), 0]
    else if sqrtPriceX96 < upper then
      [GetAmount0ForLiquidity(sqrtPriceX96, upper, liquidity), GetAmount1ForLiquidity(lower, sqrtPriceX96, liquidity)]
    else
      [0, GetAmount1ForLiquidity(lower, upper, liquidity)]
  }

  /** The result does not depend on which bound is passed first. */
  lemma AmountsForLiquidityOrderIndependent(price: int, a: int, b: int, liquidity: int)
    ensures GetAmountsForLiquidity(price, a, b, liquidity) == GetAmountsForLiquidity(price, b, a, liquidity)
  {
  }

  /** With non-negative liquidity no region yields a negative amount. */
  lemma AmountsForLiquidityNonNegative(price: int, a: int, b: int, liquidity: int)
    requires liquidity >= 0
    ensures GetAmountsForLiquidity(price, a, b, liquidity)[0] >= 0
    ensures GetAmountsForLiquidity(price, a, b, liquidity)[1] >= 0
  {
  }
}
