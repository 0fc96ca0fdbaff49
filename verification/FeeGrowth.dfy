/**
 Unclaimed fees of a position: fee growth inside a tick range, modulo 2^256.

 `Unclaimed` is the computation; `Pool` and `Event` are the pool's own bookkeeping (sections 6.3
 and 6.4 of the Uniswap v3 Core whitepaper), against which the computation is proved.
 */
module FeeGrowth {
  import opened Common

  const M: nat := 0x1_0000_0000_0000_0000_0000_0000_0000_0000_0000_0000_0000_0000_0000_0000_0000_0000

  type Word = n: nat | n < M

  function Sub(a: Word, b: Word): Word { if a >= b then a - b else a - b + M }

  function Add(a: Word, b: nat): Word { (a + b) % M }

  // ---------------------------------------------------------------- the computation

  datatype Error = ShortWords | FeeOverflow

  /** The position words the computation reads, for the two tokens. */
  datatype Position = Position(lower: int, upper: int, liquidity: Word, insideLast: seq<Word>, owed: seq<Word>)

  function Inside(tick: int, lower: int, upper: int, global: Word, outLower: Word, outUpper: Word): Word {
    var below := if tick >= lower then outLower else Sub(global, outLower);
    var above := if tick < upper then outUpper else Sub(global, outUpper);
    Sub(Sub(global, below), above)
  }

  /** Fees of one token: the growth since the snapshot times the liquidity, plus what was already owed. */
  function Earned(delta: Word, liquidity: Word, owed: Word): Result<Word, Error> {
    var earned := delta * liquidity / TWO128;
    if earned >= M || earned + owed >= M then Err(FeeOverflow) else Ok(earned + owed)
  }

  function UnclaimedToken(p: Position, tick: int, global: Word, outLower: Word, outUpper: Word, i: nat): Result<Word, Error>
    requires i < |p.insideLast| && i < |p.owed|
  {
    Earned(Sub(Inside(tick, p.lower, p.upper, global, outLower, outUpper), p.insideLast[i]), p.liquidity, p.owed[i])
  }

  /** `lower` and `upper` are the words of the two ticks; the outside counters are words 2 and 3. */
  method Unclaimed(p: Position, tick: int, lower: seq<Word>, upper: seq<Word>, global: seq<Word>)
    returns (r: Result<(Word, Word), Error>)
    requires |global| == |p.insideLast| == |p.owed| == 2
    ensures r.Ok? <==>
            && |lower| >= 4 && |upper| >= 4
            && forall i :: 0 <= i < 2 ==> UnclaimedToken(p, tick, global[i], lower[2 + i], upper[2 + i], i).Ok?
    ensures r.Ok? ==>
              && UnclaimedToken(p, tick, global[0], lower[2], upper[2], 0) == Ok(r.value.0)
              && UnclaimedToken(p, tick, global[1], lower[3], upper[3], 1) == Ok(r.value.1)
  {
    if |lower| < 4 || |upper| < 4 {
      return Err(ShortWords);
    }
    var out := new Word[2](_ => 0);
    var i := 0;
    while i < 2
      invariant 0 <= i <= 2
      invariant forall k :: 0 <= k < i ==>
                              UnclaimedToken(p, tick, global[k], lower[2 + k], upper[2 + k], k) == Ok(out[k])
    {
      var below := if tick >= p.lower then lower[2 + i] else Sub(global[i], lower[2 + i]);
      var above := if tick < p.upper then upper[2 + i] else Sub(global[i], upper[2 + i]);
      var delta := Sub(Sub(Sub(global[i], below), above), p.insideLast[i]);
      var earned := delta * p.liquidity / TWO128;
      assert Earned(delta, p.liquidity, p.owed[i])
          == UnclaimedToken(p, tick, global[i], lower[2 + i], upper[2 + i], i);
      if earned >= M || earned + p.owed[i] >= M {
        return Err(FeeOverflow);
      }
      out[i] := earned + p.owed[i];
      i := i + 1;
    }
    r := Ok((out[0], out[1]));
  }

  // ---------------------------------------------------------------- the pool's bookkeeping

  /** One token's counters around a range, and the current tick. */
  datatype Pool = Pool(tick: int, global: Word, outLower: Word, outUpper: Word)

  datatype Event =
    | Accrue(amount: nat)     // a swap step inside the current tick adds to the global growth
    | MoveTo(tick: int)       // the price moves; every boundary it crosses flips its outside counter

  predicate Crosses(boundary: int, from: int, to: int) { (from >= boundary) != (to >= boundary) }

  function Apply(s: Pool, lower: int, upper: int, e: Event): Pool {
    match e
    case Accrue(amount) => s.(global := Add(s.global, amount))
    case MoveTo(t) =>
      Pool(t, s.global,
           if Crosses(lower, s.tick, t) then Sub(s.global, s.outLower) else s.outLower,
           if Crosses(upper, s.tick, t) then Sub(s.global, s.outUpper) else s.outUpper)
  }

  function Run(s: Pool, lower: int, upper: int, events: seq<Event>): Pool
    decreases |events|
  {
    if events == [] then s else Run(Apply(s, lower, upper, events[0]), lower, upper, events[1..])
  }

  /** What a position in the range earned, by definition: the accruals made while the tick was inside. */
  function InsideAccruals(tick: int, lower: int, upper: int, events: seq<Event>): nat
    decreases |events|
  {
    if events == [] then 0
    else
      match events[0]
      case Accrue(amount) =>
        (if lower <= tick < upper then amount else 0) + InsideAccruals(tick, lower, upper, events[1..])
      case MoveTo(t) => InsideAccruals(t, lower, upper, events[1..])
  }

  function InsideOf(s: Pool, lower: int, upper: int): Word {
    Inside(s.tick, lower, upper, s.global, s.outLower, s.outUpper)
  }

  /** Addition of a reduced amount: one conditional subtraction. */
  function AddReduced(a: Word, r: Word): Word { if a + r < M then a + r else a + r - M }

  lemma AddIsReduced(a: Word, b: nat)
    ensures Add(a, b) == AddReduced(a, b % M)
  {
    var k, r := b / M, b % M;
    assert b == k * M + r;
    if a + r < M { Unique(a + b, k, a + r); } else { Unique(a + b, k + 1, a + r - M); }
  }

  lemma Unique(n: nat, k: nat, r: nat)
    requires n == k * M + r && r < M
    ensures n % M == r
  {
  }

  lemma AddMod(a: Word, b: nat, c: nat)
    ensures Add(Add(a, b), c) == Add(a, b + c)
  {
    var k, r := (a + b) / M, (a + b) % M;
    var k', r' := (r + c) / M, (r + c) % M;
    assert a + b + c == (k + k') * M + r';
    Unique(a + b + c, k + k', r');
  }

  lemma MoveStep(s: Pool, lower: int, upper: int, t: int)
    requires lower < upper
    ensures InsideOf(Apply(s, lower, upper, MoveTo(t)), lower, upper) == InsideOf(s, lower, upper)
  {
  }

  lemma SubShift(a: Word, b: Word, r: Word)
    ensures Sub(AddReduced(a, r), b) == AddReduced(Sub(a, b), r)
  {
  }

  lemma SubCancels(a: Word, b: Word, r: Word)
    ensures Sub(AddReduced(a, r), AddReduced(b, r)) == Sub(a, b)
  {
  }

  /** Global growth shows inside the range exactly while the tick is in it. */
  lemma InsideShift(s: Pool, lower: int, upper: int, r: Word)
    requires lower < upper
    ensures InsideOf(s.(global := AddReduced(s.global, r)), lower, upper)
         == if lower <= s.tick < upper then AddReduced(InsideOf(s, lower, upper), r) else InsideOf(s, lower, upper)
  {
    var below := if s.tick >= lower then s.outLower else Sub(s.global, s.outLower);
    var above := if s.tick < upper then s.outUpper else Sub(s.global, s.outUpper);
    SubShift(s.global, s.outLower, r);
    SubShift(s.global, s.outUpper, r);
    SubShift(s.global, below, r);
    SubShift(Sub(s.global, below), above, r);
    SubCancels(s.global, below, r);
    SubCancels(Sub(s.global, below), above, r);
  }

  lemma AccrueStep(s: Pool, lower: int, upper: int, amount: nat)
    requires lower < upper
    ensures InsideOf(Apply(s, lower, upper, Accrue(amount)), lower, upper)
         == if lower <= s.tick < upper then Add(InsideOf(s, lower, upper), amount) else InsideOf(s, lower, upper)
  {
    AddIsReduced(s.global, amount);
    AddIsReduced(InsideOf(s, lower, upper), amount);
    InsideShift(s, lower, upper, amount % M);
  }

  lemma {:induction false} InsideGrowth(s: Pool, lower: int, upper: int, events: seq<Event>)
    requires lower < upper
    ensures InsideOf(Run(s, lower, upper, events), lower, upper)
         == Add(InsideOf(s, lower, upper), InsideAccruals(s.tick, lower, upper, events))
    decreases |events|
  {
    if events != [] {
      InsideGrowth(Apply(s, lower, upper, events[0]), lower, upper, events[1..]);
      match events[0]
      case Accrue(amount) =>
        AccrueStep(s, lower, upper, amount);
        AddMod(InsideOf(s, lower, upper), amount, InsideAccruals(s.tick, lower, upper, events[1..]));
      case MoveTo(t) =>
        MoveStep(s, lower, upper, t);
    }
  }

  lemma SubAdd(a: Word, b: nat)
    ensures Sub(Add(a, b), a) == b % M
  {
    AddIsReduced(a, b);
  }

  /**
   From any counters, along any history of accruals and price moves and across wrap-around, the
   growth computed since a snapshot is, modulo 2^256, exactly what accrued while the tick was in
   the range.
   */
  lemma GrowthSinceSnapshot(s: Pool, lower: int, upper: int, events: seq<Event>)
    requires lower < upper
    ensures Sub(InsideOf(Run(s, lower, upper, events), lower, upper), InsideOf(s, lower, upper))
         == InsideAccruals(s.tick, lower, upper, events) % M
  {
    InsideGrowth(s, lower, upper, events);
    SubAdd(InsideOf(s, lower, upper), InsideAccruals(s.tick, lower, upper, events));
  }

  /**
   Hence the reported fee: the floor of that growth, modulo 2^256, times the liquidity, plus what was
   already owed, or the overflow error when that does not fit.
   */
  lemma UnclaimedIsInsideAccruals(s: Pool, p: Position, events: seq<Event>, i: nat)
    requires p.lower < p.upper && i < |p.insideLast| && i < |p.owed|
    requires p.insideLast[i] == InsideOf(s, p.lower, p.upper)
    ensures var e := Run(s, p.lower, p.upper, events);
            UnclaimedToken(p, e.tick, e.global, e.outLower, e.outUpper, i)
            == Earned(InsideAccruals(s.tick, p.lower, p.upper, events) % M, p.liquidity, p.owed[i])
  {
    GrowthSinceSnapshot(s, p.lower, p.upper, events);
  }
}
