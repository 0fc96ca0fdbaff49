/**
 Uniswap V3 slippage arithmetic on raw Q64.96 integers.

 Every 512-bit product is written with an explicit wrap-around (`Mul512`), as the source's
 fixed-width type computes it; the lemmas show that no product ever wraps.
 */
module Slippage {
  import opened Common

  const Q96: nat := 0x1_0000_0000_0000_0000_0000_0000
  const TWO160: nat := 0x1_0000_0000_0000_0000_0000_0000_0000_0000_0000_0000
  const TWO256: nat := 0x1_0000_0000_0000_0000_0000_0000_0000_0000_0000_0000_0000_0000_0000_0000_0000_0000
  const TWO512: nat := 0x1_0000_0000_0000_0000_0000_0000_0000_0000_0000_0000_0000_0000_0000_0000_0000_0000_0000_0000_0000_0000_0000_0000_0000_0000_0000_0000_0000_0000_0000_0000_0000_0000
  const MIN_SQRT: nat := 4295128739
  const MAX_SQRT: nat := 1461446703485210103287273052203988822378723970342

  datatype Error =
    | InvalidPrice | Overflow | ZeroDenominator | LiquidityTooLarge
    | OutsideRange | ZeroLiquidity | TooNarrow | InvalidMinimums | PriceMoved

  type Answer<T> = Result<T, Error>

  // ---------------------------------------------------------------- arithmetic of the fixed-width types

  /** Reduction modulo 2^512. */
  function Wrap512(n: nat): nat { if n < TWO512 then n else Wrap512(n - TWO512) }

  function Mul512(a: nat, b: nat): nat { Wrap512(a * b) }

  function Narrow(n: nat): Answer<nat> {
    if n < TWO256 then Ok(n) else Err(Overflow)
  }

  function Divide(n: nat, d: nat, roundUp: bool): Answer<nat> {
    if d == 0 then Err(ZeroDenominator)
    else Narrow(Wrap512(n / d + (if roundUp && n % d != 0 then 1 else 0)))
  }

  /** Integer square root, rounded down. */
  function Root(n: nat): (r: nat)
    ensures r * r <= n < (r + 1) * (r + 1)
  {
    if n == 0 then 0
    else
      var h := 2 * Root(n / 4);
      assert h * h <= n < (h + 2) * (h + 2) by { RootStep(n, h / 2); }
      if (h + 1) * (h + 1) <= n then h + 1 else h
  }

  lemma RootStep(n: nat, q: nat)
    requires q * q <= n / 4 < (q + 1) * (q + 1)
    ensures (2 * q) * (2 * q) <= n < (2 * q + 2) * (2 * q + 2)
  {
    assert (2 * q) * (2 * q) == 4 * (q * q);
    assert (2 * q + 2) * (2 * q + 2) == 4 * ((q + 1) * (q + 1));
  }

  // ---------------------------------------------------------------- the modelled operations

  function At(sqrt: nat, factor: nat): Answer<nat> {
    Narrow(Root(Mul512(Mul512(sqrt, sqrt), factor) / 10000))
  }

  /** Lowest and highest executable square-root price inside the slippage. */
  function PriceBounds(sqrt: nat, bps: nat): Answer<(nat, nat)> {
    if !(MIN_SQRT <= sqrt < MAX_SQRT && bps < 10000) then Err(InvalidPrice)
    else
      var lo :- At(sqrt, 10000 - bps);
      var hi :- At(sqrt, 10000 + bps);
      Ok((Max(lo, MIN_SQRT + 1), Min(hi, MAX_SQRT - 1)))
  }

  function CheckPriceMove(before: nat, after: nat, bps: nat): Answer<()> {
    var b :- PriceBounds(before, bps);
    if b.0 <= after <= b.1 then Ok(()) else Err(PriceMoved)
  }

  datatype Range = Range(lower: nat, upper: nat) {
    predicate Valid() { MIN_SQRT <= lower < upper <= MAX_SQRT }

    predicate Contains(sqrt: nat) { lower < sqrt < upper }

    function Liquidity0(a: nat, b: nat, amount0: nat): Answer<nat>
      requires a <= b
    {
      Divide(Mul512(amount0, Mul512(a, b) / Q96), b - a, false)
    }

    function Liquidity1(a: nat, b: nat, amount1: nat): Answer<nat>
      requires a <= b
    {
      Divide(Mul512(amount1, Q96), b - a, false)
    }

    /** The liquidity the position manager would mint for the desired amounts. */
    function Liquidity(sqrt: nat, amount0: nat, amount1: nat): Answer<nat>
      requires Valid()
    {
      var l :-
        if sqrt <= lower then Liquidity0(lower, upper, amount0)
        else if sqrt >= upper then Liquidity1(lower, upper, amount1)
        else
          var l0 :- Liquidity0(sqrt, upper, amount0);
          var l1 :- Liquidity1(lower, sqrt, amount1);
          Ok(Min(l0, l1));
      if l < TWO128 then Ok(l) else Err(LiquidityTooLarge)
    }

    function Clamp(sqrt: nat): nat { Min(Max(sqrt, lower), upper) }

    /** Token amounts of a liquidity: rounded up when paying in, down when paid out. */
    function Amounts(sqrt: nat, l: nat, roundUp: bool): Answer<(nat, nat)>
      requires Valid()
    {
      if l >= TWO128 then Err(LiquidityTooLarge)
      else
        var p := Clamp(sqrt);
        var a0 :- Divide(Mul512(Mul512(l, Q96), upper - p), Mul512(upper, p), roundUp);
        var a1 :- Divide(Mul512(l, p - lower), Q96, roundUp);
        Ok((a0, a1))
    }

    function Minimums(sqrt: nat, l: nat, bps: nat, roundUp: bool): Answer<(nat, nat)>
      requires Valid()
    {
      var b :- PriceBounds(sqrt, bps);
      var atHigh :- Amounts(b.1, l, roundUp);
      var atLow :- Amounts(b.0, l, roundUp);
      Ok((atHigh.0, atLow.1))
    }

    function MintMinimums(sqrt: nat, amount0: nat, amount1: nat, bps: nat): Answer<(nat, nat)>
      requires Valid()
    {
      if !Contains(sqrt) then Err(OutsideRange)
      else
        var l :- Liquidity(sqrt, amount0, amount1);
        if l == 0 then Err(ZeroLiquidity)
        else
          var mins :- Minimums(sqrt, l, bps, true);
          if mins.0 == 0 && mins.1 == 0 then Err(TooNarrow)
          else if !(mins.0 <= amount0 && mins.1 <= amount1) then Err(InvalidMinimums)
          else Ok(mins)
    }

    function BurnMinimums(sqrt: nat, l: nat, bps: nat): Answer<(nat, nat)>
      requires Valid()
    {
      Minimums(sqrt, l, bps, false)
    }
  }

  // ---------------------------------------------------------------- exact reference amounts

  function RoundedQuotient(n: nat, d: nat, roundUp: bool): nat
    requires d > 0
  {
    n / d + (if roundUp && n % d != 0 then 1 else 0)
  }

  /** Unbounded-integer reference: token0 owed between `p` and the upper bound. */
  function Amount0(r: Range, p: nat, l: nat, roundUp: bool): nat
    requires 0 < p <= r.upper
  {
    MulPos(r.upper, p);
    RoundedQuotient(l * Q96 * (r.upper - p), r.upper * p, roundUp)
  }

  /** Unbounded-integer reference: token1 owed between the lower bound and `p`. */
  function Amount1(r: Range, p: nat, l: nat, roundUp: bool): nat
    requires r.lower <= p
  {
    RoundedQuotient(l * (p - r.lower), Q96, roundUp)
  }

  lemma MulPos(a: int, b: int)
    requires a > 0 && b > 0
    ensures a * b > 0
  {
  }

  lemma MulMono(a: nat, b: nat, c: nat, d: nat)
    requires a <= b && c <= d
    ensures a * c <= b * d
  {
    assert a * c <= b * c;
    assert b * c <= b * d;
  }

  lemma CancelLt(a: nat, b: nat, d: nat)
    requires a * d < b * d
    ensures a < b
  {
    if b <= a { MulMono(b, a, d, d); }
  }

  /** Rounded division is the adjoint of multiplication. */
  lemma QuotientLe(n: nat, d: nat, roundUp: bool, k: nat)
    requires d > 0 && n <= k * d
    ensures RoundedQuotient(n, d, roundUp) <= k
  {
    var q, m := n / d, n % d;
    assert n == q * d + m;
    if m == 0 {
      assert q * d < (k + 1) * d by { assert (k + 1) * d == k * d + d; }
      CancelLt(q, k + 1, d);
    } else {
      CancelLt(q, k, d);
    }
  }

  lemma QuotientGe(n: nat, d: nat, roundUp: bool, k: nat)
    requires d > 0 && k * d <= n
    ensures k <= RoundedQuotient(n, d, roundUp)
  {
    var q, m := n / d, n % d;
    assert n == q * d + m;
    assert k * d < (q + 1) * d by { assert (q + 1) * d == q * d + d; }
    CancelLt(k, q + 1, d);
  }

  /** A larger fraction has a quotient at least as large, in either rounding. */
  lemma QuotientMono(n: nat, d: nat, n': nat, d': nat, roundUp: bool)
    requires 0 < d && 0 < d' && n * d' <= n' * d
    ensures RoundedQuotient(n, d, roundUp) <= RoundedQuotient(n', d', roundUp)
  {
    if roundUp {
      var k := RoundedQuotient(n', d', true);
      assert n' <= k * d' by {
        assert n' == (n' / d') * d' + n' % d';
        assert (n' / d' + 1) * d' == (n' / d') * d' + d';
      }
      assert n * d' <= (k * d) * d' by {
        MulMono(n', k * d', d, d);
        MulSwap(k, d', d);
      }
      CancelLe(n, k * d, d');
      QuotientLe(n, d, true, k);
    } else {
      var k := n / d;
      assert k * d <= n;
      assert (k * d') * d <= n' * d by {
        MulMono(k * d, n, d', d');
        MulSwap(k, d', d);
      }
      CancelLe(k * d', n', d);
      QuotientGe(n', d', false, k);
    }
  }

  lemma MulSwap(a: int, b: int, c: int)
    ensures a * b * c == a * c * b
  {
  }

  lemma CancelLe(a: nat, b: nat, d: nat)
    requires d > 0 && a * d <= b * d
    ensures a <= b
  {
    if b < a { MulMono(b + 1, a, d, d); }
  }

  lemma NoWrap(a: nat, b: nat, bound: nat)
    requires a * b <= bound < TWO512
    ensures Mul512(a, b) == a * b
  {
  }

  lemma DivideExact(n: nat, d: nat, roundUp: bool)
    requires 0 < d && n < TWO512
    requires RoundedQuotient(n, d, roundUp) < TWO256
    ensures Divide(n, d, roundUp) == Ok(RoundedQuotient(n, d, roundUp))
  {
  }

  // ---------------------------------------------------------------- no wrap: the code computes the reference

  lemma Amount0Fits(r: Range, p: nat, l: nat, roundUp: bool)
    requires r.Valid() && r.lower <= p <= r.upper && l < TWO128
    ensures Mul512(Mul512(l, Q96), r.upper - p) == l * Q96 * (r.upper - p)
    ensures Mul512(r.upper, p) == r.upper * p > 0
    ensures Amount0(r, p, l, roundUp) < TWO256
  {
    var u := r.upper;
    MulMono(l, TWO128, Q96, Q96);
    NoWrap(l, Q96, TWO128 * Q96);
    MulMono(l * Q96, TWO128 * Q96, u - p, TWO160);
    NoWrap(l * Q96, u - p, TWO128 * Q96 * TWO160);
    MulPos(u, p);
    MulMono(u, TWO160, p, TWO160);
    NoWrap(u, p, TWO160 * TWO160);
    assert l * Q96 * (u - p) <= l * Q96 * (u * p) by {
      MulMono(u, u, 1, p);
      MulMono(l * Q96, l * Q96, u - p, u * p);
    }
    QuotientLe(l * Q96 * (u - p), u * p, roundUp, l * Q96);
  }

  lemma Amount1Fits(r: Range, p: nat, l: nat, roundUp: bool)
    requires r.Valid() && r.lower <= p <= r.upper && l < TWO128
    ensures Mul512(l, p - r.lower) == l * (p - r.lower)
    ensures Amount1(r, p, l, roundUp) < TWO256
  {
    MulMono(l, TWO128, p - r.lower, TWO160);
    NoWrap(l, p - r.lower, TWO128 * TWO160);
    QuotientLe(l * (p - r.lower), Q96, roundUp, TWO160 * TWO160 / Q96);
  }

  /** `Range::amounts` never fails on a uint128 liquidity and never wraps at 512 bits. */
  lemma AmountsExact(r: Range, sqrt: nat, l: nat, roundUp: bool)
    requires r.Valid() && l < TWO128
    ensures r.lower <= r.Clamp(sqrt) <= r.upper
    ensures r.Amounts(sqrt, l, roundUp)
         == Ok((Amount0(r, r.Clamp(sqrt), l, roundUp), Amount1(r, r.Clamp(sqrt), l, roundUp)))
  {
    var p := r.Clamp(sqrt);
    Amount0Fits(r, p, l, roundUp);
    Amount1Fits(r, p, l, roundUp);
    MulMono(l * Q96, TWO128 * Q96, r.upper - p, TWO160);
    DivideExact(l * Q96 * (r.upper - p), r.upper * p, roundUp);
    MulMono(l, TWO128, p - r.lower, TWO160);
    DivideExact(l * (p - r.lower), Q96, roundUp);
  }

  /** Token0 falls as the price rises. */
  lemma Amount0Antitone(r: Range, p: nat, p': nat, l: nat, roundUp: bool)
    requires r.Valid() && r.lower <= p <= p' <= r.upper
    ensures Amount0(r, p', l, roundUp) <= Amount0(r, p, l, roundUp)
  {
    var u, k := r.upper, l * Q96;
    MulPos(u, p);
    MulPos(u, p');
    CrossMono(k, u, p, p');
    QuotientMono(k * (u - p'), u * p', k * (u - p), u * p, roundUp);
  }

  lemma CrossMono(k: nat, u: nat, p: nat, p': nat)
    requires p <= p' <= u
    ensures (k * (u - p')) * (u * p) <= (k * (u - p)) * (u * p')
  {
    MulMono(u - p', u - p, p, p');
    CrossForm(k, u - p', u, p);
    CrossForm(k, u - p, u, p');
    MulMono(k * u, k * u, (u - p') * p, (u - p) * p');
  }

  lemma CrossForm(k: int, a: int, u: int, p: int)
    ensures (k * a) * (u * p) == (k * u) * (a * p)
  {
    Regroup(k * a, p, u);
    Regroup(k * u, p, a);
    MulSwap(k, a, u);
  }

  /** Token1 rises with the price. */
  lemma Amount1Monotone(r: Range, p: nat, p': nat, l: nat, roundUp: bool)
    requires r.Valid() && r.lower <= p <= p' <= r.upper
    ensures Amount1(r, p, l, roundUp) <= Amount1(r, p', l, roundUp)
  {
    var n, n' := l * (p - r.lower), l * (p' - r.lower);
    assert n <= n' by { MulMono(l, l, p - r.lower, p' - r.lower); }
    MulMono(n, n', Q96, Q96);
    QuotientMono(n, Q96, n', Q96, roundUp);
  }

  // ---------------------------------------------------------------- price bounds

  lemma SquareMono(a: nat, b: nat)
    ensures a <= b <==> a * a <= b * b
  {
    if a <= b { MulMono(a, b, a, b); } else { MulMono(b + 1, a, b + 1, a); }
  }

  /** `Root` is the adjoint of squaring. */
  lemma RootAdjoint(n: nat, p: nat)
    ensures p <= Root(n) <==> p * p <= n
  {
    FloorRootAdjoint(n, Root(n), p);
  }

  lemma FloorRootAdjoint(n: nat, r: nat, p: nat)
    requires r * r <= n < (r + 1) * (r + 1)
    ensures p <= r <==> p * p <= n
  {
    if p <= r { SquareMono(p, r); } else { SquareMono(r + 1, p); }
  }

  lemma AtExact(sqrt: nat, factor: nat, p: nat)
    requires sqrt < MAX_SQRT && factor < 20000
    ensures At(sqrt, factor).Ok?
    ensures p <= At(sqrt, factor).value <==> 10000 * (p * p) <= sqrt * sqrt * factor
  {
    MulMono(sqrt, TWO160, sqrt, TWO160);
    NoWrap(sqrt, sqrt, TWO160 * TWO160);
    MulMono(sqrt * sqrt, TWO160 * TWO160, factor, 20000);
    NoWrap(sqrt * sqrt, factor, TWO160 * TWO160 * 20000);
    var n := sqrt * sqrt * factor / 10000;
    SquareMono(TWO256, Root(n));
    RootAdjoint(n, p);
  }

  /**
   The bounds are exactly the extreme integers whose square lies within the slippage of the
   quoted square, clipped to the executable prices.
   */
  lemma PriceBoundsExact(sqrt: nat, bps: nat, p: nat)
    ensures PriceBounds(sqrt, bps).Ok? <==> MIN_SQRT <= sqrt < MAX_SQRT && bps < 10000
    ensures PriceBounds(sqrt, bps).Ok? ==>
              var (lo, hi) := PriceBounds(sqrt, bps).value;
              && (p <= lo <==> p <= MIN_SQRT + 1 || 10000 * (p * p) <= sqrt * sqrt * (10000 - bps))
              && (p <= hi <==> p < MAX_SQRT && 10000 * (p * p) <= sqrt * sqrt * (10000 + bps))
  {
    if MIN_SQRT <= sqrt < MAX_SQRT && bps < 10000 {
      AtExact(sqrt, 10000 - bps, p);
      AtExact(sqrt, 10000 + bps, p);
    }
  }

  /** The quoted price itself lies inside its bounds, unless it is the very lowest price. */
  lemma QuoteInsideBounds(sqrt: nat, bps: nat)
    requires MIN_SQRT <= sqrt < MAX_SQRT && bps < 10000
    ensures PriceBounds(sqrt, bps).Ok?
    ensures sqrt <= PriceBounds(sqrt, bps).value.1
    ensures PriceBounds(sqrt, bps).value.0 <= sqrt <==> MIN_SQRT < sqrt
    ensures CheckPriceMove(sqrt, sqrt, bps).Ok? <==> MIN_SQRT < sqrt
  {
    PriceBoundsExact(sqrt, bps, sqrt);
    PriceBoundsExact(sqrt, bps, sqrt + 1);
    var n := sqrt * sqrt;
    assert 10000 * n <= n * (10000 + bps) by { MulMono(n, n, 10000, 10000 + bps); }
    assert n * (10000 - bps) < 10000 * ((sqrt + 1) * (sqrt + 1)) by {
      MulMono(n, n, 10000 - bps, 10000);
      assert (sqrt + 1) * (sqrt + 1) == n + 2 * sqrt + 1;
    }
  }

  // ---------------------------------------------------------------- minting

  lemma DivideFloor(n: nat, d: nat)
    requires d > 0 && n < TWO512 && Divide(n, d, false).Ok?
    ensures Divide(n, d, false).value * d <= n
  {
    DivSmall(n, d);
    FloorProduct(n, d);
  }

  lemma FloorProduct(n: nat, d: nat)
    requires d > 0
    ensures n / d * d <= n < n / d * d + d
  {
  }

  lemma DivSmall(n: nat, d: nat)
    requires d > 0
    ensures n / d <= n
  {
    FloorProduct(n, d);
    if n < n / d { MulMono(n + 1, n / d, 1, d); }
  }

  lemma ChainDown(l: nat, w: nat, a: nat, m: nat, n: nat)
    requires l * w <= a * m && m * Q96 <= n
    ensures l * Q96 * w <= a * n
  {
    MulMono(l * w, a * m, Q96, Q96);
    MulMono(a, a, m * Q96, n);
  }

  /** A liquidity bought with token0 is worth, in it, no more than was paid. */
  lemma LiquidityBelow(p: nat, u: nat, amount0: nat, l: nat)
    requires p < u && l * (u - p) <= amount0 * (p * u / Q96)
    ensures l * Q96 * (u - p) <= amount0 * (p * u)
  {
    FloorProduct(p * u, Q96);
    ChainDown(l, u - p, amount0, p * u / Q96, p * u);
  }

  lemma Liquidity0NoWrap(p: nat, u: nat, amount0: nat)
    requires p < TWO160 && u < TWO160 && amount0 < TWO256
    ensures Mul512(amount0, Mul512(p, u) / Q96) == amount0 * (p * u / Q96) < TWO512
  {
    MulMono(p, TWO160, u, TWO160);
    NoWrap(p, u, TWO160 * TWO160);
    QuotientLe(p * u, Q96, false, TWO160 * TWO160 / Q96);
    MulMono(amount0, TWO256, p * u / Q96, TWO160 * TWO160 / Q96);
    NoWrap(amount0, p * u / Q96, TWO256 * (TWO160 * TWO160 / Q96));
  }

  lemma Liquidity1NoWrap(amount1: nat)
    requires amount1 < TWO256
    ensures Mul512(amount1, Q96) == amount1 * Q96 < TWO512
  {
    MulMono(amount1, TWO256, Q96, Q96);
    NoWrap(amount1, Q96, TWO256 * Q96);
  }

  /** Paying in the computed liquidity, rounded against the caller, never exceeds what was offered. */
  lemma MintAmountsFit(r: Range, sqrt: nat, amount0: nat, amount1: nat)
    requires r.Valid() && r.Contains(sqrt) && amount0 < TWO256 && amount1 < TWO256
    requires r.Liquidity(sqrt, amount0, amount1).Ok?
    ensures var l := r.Liquidity(sqrt, amount0, amount1).value;
            && r.Amounts(sqrt, l, true).Ok?
            && r.Amounts(sqrt, l, true).value.0 <= amount0
            && r.Amounts(sqrt, l, true).value.1 <= amount1
  {
    var l := r.Liquidity(sqrt, amount0, amount1).value;
    var l0 := r.Liquidity0(sqrt, r.upper, amount0).value;
    var l1 := r.Liquidity1(r.lower, sqrt, amount1).value;
    AmountsExact(r, sqrt, l, true);
    MulPos(r.upper, sqrt);
    Liquidity0NoWrap(sqrt, r.upper, amount0);
    DivideFloor(amount0 * (sqrt * r.upper / Q96), r.upper - sqrt);
    LiquidityBelow(sqrt, r.upper, amount0, l0);
    MulMono(l * Q96, l0 * Q96, r.upper - sqrt, r.upper - sqrt) by { MulMono(l, l0, Q96, Q96); }
    QuotientLe(l * Q96 * (r.upper - sqrt), r.upper * sqrt, true, amount0);
    Liquidity1NoWrap(amount1);
    DivideFloor(amount1 * Q96, sqrt - r.lower);
    MulMono(l, l1, sqrt - r.lower, sqrt - r.lower);
    QuotientLe(l * (sqrt - r.lower), Q96, true, amount1);
  }

  /** Minimums never exceed the amounts at any price inside the bounds (either rounding). */
  lemma MinimumsBelow(r: Range, sqrt: nat, l: nat, bps: nat, roundUp: bool, later: nat)
    requires r.Valid() && l < TWO128 && PriceBounds(sqrt, bps).Ok?
    requires CheckPriceMove(sqrt, later, bps).Ok?
    ensures r.Minimums(sqrt, l, bps, roundUp).Ok? && r.Amounts(later, l, roundUp).Ok?
    ensures r.Minimums(sqrt, l, bps, roundUp).value.0 <= r.Amounts(later, l, roundUp).value.0
    ensures r.Minimums(sqrt, l, bps, roundUp).value.1 <= r.Amounts(later, l, roundUp).value.1
  {
    var (lo, hi) := PriceBounds(sqrt, bps).value;
    AmountsExact(r, lo, l, roundUp);
    AmountsExact(r, hi, l, roundUp);
    AmountsExact(r, later, l, roundUp);
    Amount0Antitone(r, r.Clamp(later), r.Clamp(hi), l, roundUp);
    Amount1Monotone(r, r.Clamp(lo), r.Clamp(later), l, roundUp);
  }

  /**
   Mint minimums are sound: the call succeeds exactly when the price is inside the range, the
   slippage is valid, the liquidity is a positive uint128 and the range is not too narrow. The
   final comparison with the desired amounts never rejects, and the minimums are reachable at
   the quoted price.
   */
  lemma MintMinimumsSound(r: Range, sqrt: nat, amount0: nat, amount1: nat, bps: nat)
    requires r.Valid() && amount0 < TWO256 && amount1 < TWO256
    ensures r.MintMinimums(sqrt, amount0, amount1, bps) != Err(InvalidMinimums)
    ensures var l := r.Liquidity(sqrt, amount0, amount1);
            r.MintMinimums(sqrt, amount0, amount1, bps).Ok? <==>
            && r.Contains(sqrt) && bps < 10000 && l.Ok? && l.value > 0
            && r.Minimums(sqrt, l.value, bps, true) != Ok((0, 0))
    ensures r.MintMinimums(sqrt, amount0, amount1, bps).Ok? ==>
              var used := r.Amounts(sqrt, r.Liquidity(sqrt, amount0, amount1).value, true);
              var mins := r.MintMinimums(sqrt, amount0, amount1, bps).value;
              && used.Ok?
              && mins.0 <= used.value.0 <= amount0
              && mins.1 <= used.value.1 <= amount1
  {
    var l := r.Liquidity(sqrt, amount0, amount1);
    if r.Contains(sqrt) && l.Ok? {
      MintAmountsFit(r, sqrt, amount0, amount1);
      if bps < 10000 {
        QuoteInsideBounds(sqrt, bps);
        MinimumsBelow(r, sqrt, l.value, bps, true, sqrt);
      }
    }
  }

  // ---------------------------------------------------------------- burning

  /**
   What the pool pays for burning `l` at a square-root price, as the pool contract computes it:
   token0 by two successive floor divisions, token1 by one.
   */
  function PoolPays(r: Range, sqrt: nat, l: nat): (nat, nat)
    requires r.Valid()
  {
    var p := r.Clamp(sqrt);
    (FloorTwice(l * Q96 * (r.upper - p), r.upper, p), l * (p - r.lower) / Q96)
  }

  function FloorTwice(n: nat, a: nat, b: nat): nat
    requires a > 0 && b > 0
  {
    n / a / b
  }

  lemma NestedFloor(n: nat, a: nat, b: nat)
    requires a > 0 && b > 0
    ensures a * b > 0 && FloorTwice(n, a, b) == n / (a * b)
  {
    MulPos(a, b);
    FloorProduct(n, a);
    FloorProduct(n / a, b);
    FloorProduct(n, a * b);
    NestedFloorArith(n, a, b, n / a, n / a / b, n / (a * b));
  }

  lemma NestedFloorArith(n: nat, a: nat, b: nat, m: nat, k: nat, q: nat)
    requires a > 0 && b > 0 && a * b > 0
    requires m * a <= n < m * a + a
    requires k * b <= m < k * b + b
    requires q * (a * b) <= n < q * (a * b) + a * b
    ensures k == q
  {
    assert k * (a * b) <= n by { MulMono(k * b, m, a, a); Regroup(k, a, b); }
    assert n < (k + 1) * (a * b) by {
      MulMono(m + 1, (k + 1) * b, a, a);
      Regroup(k + 1, a, b);
    }
    SameQuotient(n, a * b, k, q);
  }

  lemma Regroup(k: int, a: int, b: int)
    ensures k * b * a == k * (a * b)
  {
  }

  lemma SameQuotient(n: nat, d: nat, k: nat, q: nat)
    requires d > 0
    requires k * d <= n < (k + 1) * d && q * d <= n < q * d + d
    ensures k == q
  {
    CancelLt(q, k + 1, d);
    assert (q + 1) * d == q * d + d;
    CancelLt(k, q + 1, d);
  }

  /** The single rounded-down division of `Range::amounts` is exactly what the pool pays. */
  lemma PoolPaysAmounts(r: Range, sqrt: nat, l: nat)
    requires r.Valid() && l < TWO128
    ensures r.Amounts(sqrt, l, false) == Ok(PoolPays(r, sqrt, l))
  {
    AmountsExact(r, sqrt, l, false);
    NestedFloor(l * Q96 * (r.upper - r.Clamp(sqrt)), r.upper, r.Clamp(sqrt));
  }

  /**
   Burn minimums are sound: they are produced for every valid quote and uint128 liquidity with
   no overflow, and burning at any later price inside the slippage bounds, in range or on either
   side of it, makes the pool pay at least both of them.
   */
  lemma BurnMinimumsSound(r: Range, sqrt: nat, l: nat, bps: nat, later: nat)
    requires r.Valid()
    ensures r.BurnMinimums(sqrt, l, bps).Ok? <==>
            MIN_SQRT <= sqrt < MAX_SQRT && bps < 10000 && l < TWO128
    ensures r.BurnMinimums(sqrt, l, bps).Ok? && CheckPriceMove(sqrt, later, bps).Ok? ==>
              && r.BurnMinimums(sqrt, l, bps).value.0 <= PoolPays(r, later, l).0
              && r.BurnMinimums(sqrt, l, bps).value.1 <= PoolPays(r, later, l).1
  {
    PriceBoundsExact(sqrt, bps, 0);
    if PriceBounds(sqrt, bps).Ok? && l < TWO128 {
      var (lo, hi) := PriceBounds(sqrt, bps).value;
      AmountsExact(r, lo, l, false);
      AmountsExact(r, hi, l, false);
      if CheckPriceMove(sqrt, later, bps).Ok? {
        MinimumsBelow(r, sqrt, l, bps, false, later);
        PoolPaysAmounts(r, later, l);
      }
    }
  }
}
