/** The rotary embedding's split of tokens over cores and of each core's share over loops, in
    wrapping 64-bit arithmetic. */
module RotaryTiling {
  import opened Division

  const WORD := 0x1_0000_0000_0000_0000
  const THRESHOLD := 4000
  const CORES_SMALL := 8
  const CORES_LARGE := 16
  const UB_910 := 192 * 1024
  const UB_310 := 252 * 1024
  const FP32_BYTES := 4

  type Word = x: int | 0 <= x < WORD witness 0

  function Wrap(x: int): Word { x % WORD }

  function Min(a: Word, b: Word): Word { if a < b then a else b }

  function TargetCores(is310: bool, available: Word, tokens: Word): Word {
    if is310 || tokens <= THRESHOLD then Min(available, CORES_SMALL) else Min(available, CORES_LARGE)
  }

  /** What the tiling is computed from. */
  datatype Input = Input(tokens: Word, leading: Word, headSize: Word, rotaryDim: Word, neox: bool, is310: bool, available: Word, platformUb: Word)

  /** At least one core and a head; tensor dimensions are signed 64-bit numbers. */
  predicate Usable(i: Input) { i.available > 0 && i.headSize > 0 && i.tokens < WORD / 2 }

  /** The share of a core, cut into loops. */
  datatype Loops = Loops(share: Word, times: Word, each: Word, last: Word)

  datatype Tiling = Tiling(frontCores: Word, tailCores: Word, cores: Word, front: Loops, tail: Loops)

  function PerToken(i: Input): Word
    requires Usable(i)
  {
    Wrap(Wrap((i.leading / i.headSize) * Wrap(Wrap(i.rotaryDim * (if i.neox then 9 else 11)) + i.headSize)) * FP32_BYTES)
  }

  function UbLimit(i: Input): Word { Min(i.platformUb, if i.is310 then UB_310 else UB_910) }

  lemma FitsBelow(limit: nat, size: nat)
    ensures size > 0 ==> 0 <= limit / size <= limit && (limit / size) * size <= limit
  {
    if size > 0 {
      var q := limit / size;
      assert limit == q * size + limit % size;
      assert size * q == q * size;
      MulMonotone(1, size, q);
    }
  }

  /** How many tokens one loop takes: as many as the buffer holds, but at least one. */
  function LoopSize(i: Input): (r: Word)
    requires Usable(i)
    ensures 1 <= r <= UB_310
    ensures 0 < PerToken(i) <= UbLimit(i) ==> r * PerToken(i) <= UbLimit(i)
  {
    FitsBelow(UbLimit(i), PerToken(i));
    var fit := if PerToken(i) == 0 then 0 else UbLimit(i) / PerToken(i);
    if fit < 1 then 1 else fit
  }

  /** A core's loops do its share: one loop of all of it, or full loops and a last one that is
      neither empty nor larger. */
  ghost predicate DoesShare(l: Loops) {
    if l.times == 1 then l.each == l.share && l.last == 0
    else l.times > 1 && 1 <= l.last <= l.each && (l.times - 1) * l.each + l.last == l.share
  }

  /** How many loops of n tokens a share needs. */
  function Times(share: Word, n: Word): Word
    requires n > 0
  {
    Wrap(Wrap(share + n) - 1) / n
  }

  /** The last loop: what the full ones leave. */
  function Last(share: Word, each: Word, times: Word): Word {
    if times == 1 then 0 else Wrap(share - Wrap(each * Wrap(times - 1)))
  }

  lemma CeilBounds(share: nat, n: nat)
    requires n >= 1
    ensures var t := (share + n - 1) / n;
      && (share >= 1 ==> 1 <= t && (t - 1) * n < share <= t * n && t <= share)
      && (share == 0 ==> t == 0)
  {
    var y := share + n - 1;
    var t := y / n;
    assert y == t * n + y % n;
    assert (t - 1) * n == t * n - n;
    if share == 0 {
      DivUnique(y, n, 0, y);
    } else {
      if t < 1 { MulMonotone(t, 0, n); }
      assert n * (t - 1) == (t - 1) * n;
      MulMonotone(1, n, t - 1);
    }
  }

  lemma TimesBounds(share: Word, n: Word)
    requires 1 <= n <= UB_310 && share < WORD / 2
    ensures Times(share, n) == (share + n - 1) / n
    ensures share >= 1 ==> 1 <= Times(share, n) <= share && (Times(share, n) - 1) * n < share <= Times(share, n) * n
    ensures share == 0 ==> Times(share, n) == 0
  {
    CeilBounds(share, n);
    assert Wrap(Wrap(share + n) - 1) == share + n - 1;
  }

  /** With no token the last loop is not empty: the subtraction wraps around to a full loop. */
  lemma NoTokensWrap(n: Word)
    requires 1 <= n <= UB_310
    ensures Last(0, n, 0) == n
  {
    assert Wrap(-1) == WORD - 1;
    assert n * (WORD - 1) == (n - 1) * WORD + (WORD - n);
    DivUnique(n * (WORD - 1), WORD, n - 1, WORD - n);
    assert Wrap(0 - (WORD - n)) == n;
  }

  /** Several loops do the share between them. */
  lemma ManyLoops(share: Word, n: Word, times: Word)
    requires n > 0 && times > 1 && (times - 1) * n < share <= times * n
    ensures DoesShare(Loops(share, times, n, Last(share, n, times)))
  {
    NoWrapLast(share, n, times);
    assert (times - 1) * n == times * n - n;
  }

  lemma OneLoop(share: Word, n: Word)
    requires share <= n
    ensures DoesShare(Loops(share, 1, share, Last(share, share, 1)))
  {
  }

  /** A front core with at least one token does its share; with none it does not. */
  lemma FrontLoops(share: Word, n: Word)
    requires 1 <= n <= UB_310 && share < WORD / 2
    ensures var times := Times(share, n);
      var each := if times == 1 then share else n;
      (DoesShare(Loops(share, times, each, Last(share, each, times))) <==> share >= 1)
    ensures share == 0 ==> Times(share, n) == 0 && Last(share, n, 0) == n
    ensures Times(share, n) == 1 ==> share <= n
  {
    TimesBounds(share, n);
    NoTokensWrap(n);
    hide Times, Last, Wrap;
    var times := Times(share, n);
    if times > 1 {
      ManyLoops(share, n, times);
    } else if times == 1 {
      OneLoop(share, n);
    }
  }

  lemma NoWrapLast(share: Word, n: Word, times: Word)
    requires n > 0 && times > 1 && (times - 1) * n < share
    ensures Last(share, n, times) == share - (times - 1) * n
  {
    assert Wrap(times - 1) == times - 1;
    MulNat(times - 1, n);
    assert n * (times - 1) == (times - 1) * n;
  }

  /** A tail core with at least one token does its share. */
  lemma TailLoops(share: Word, n: Word)
    requires 1 <= n <= UB_310 && share < WORD / 2
    ensures var times := Times(share, n);
      var each := if times <= 1 then share else n;
      (share >= 1 ==> DoesShare(Loops(share, times, each, Last(share, each, times))))
    ensures Times(share, n) <= 1 ==> share <= n
  {
    TimesBounds(share, n);
    hide Times, Last, Wrap;
    var times := Times(share, n);
    if times > 1 {
      ManyLoops(share, n, times);
    } else if times == 1 {
      OneLoop(share, n);
    }
  }

  function FrontCores(tokens: Word, target: Word): Word
    requires target > 0
  {
    if tokens % target != 0 then tokens % target else target
  }

  function TailCores(tokens: Word, target: Word): int
    requires target > 0
  {
    if tokens <= target then 0 else target - FrontCores(tokens, target)
  }

  function FrontShare(tokens: Word, target: Word): Word
    requires target > 0
  {
    Wrap(Wrap(tokens + target) - 1) / target
  }

  function TailShare(tokens: Word, target: Word): Word
    requires target > 0
  {
    if tokens <= target then 0 else tokens / target
  }

  lemma CeilIs(tokens: nat, target: nat)
    requires target >= 1
    ensures (tokens + target - 1) / target == tokens / target + if tokens % target == 0 then 0 else 1
  {
    var q, x, y := tokens / target, tokens % target, tokens + target - 1;
    assert tokens == q * target + x;
    assert (q + 1) * target == q * target + target;
    if x == 0 { DivUnique(y, target, q, target - 1); } else { DivUnique(y, target, q + 1, x - 1); }
  }

  lemma QuotientBounds(tokens: nat, target: nat)
    requires target >= 1
    ensures tokens == (tokens / target) * target + tokens % target
    ensures tokens >= target <==> tokens / target >= 1
    ensures tokens / target <= tokens
    ensures tokens == target ==> tokens / target == 1 && tokens % target == 0
    ensures tokens < target ==> tokens / target == 0 && tokens % target == tokens
  {
    var q := tokens / target;
    assert target * q == q * target;
    MulMonotone(1, target, q);
    if q >= 1 { MulMonotone(1, q, target); } else { MulMonotone(q, 0, target); }
    if tokens == target { DivUnique(tokens, target, 1, 0); }
    if tokens < target { DivUnique(tokens, target, 0, tokens); }
  }

  /** Every token belongs to one core: a front core takes one more than a tail core. */
  lemma SharesAddUp(tokens: Word, target: Word)
    requires 1 <= target <= CORES_LARGE && tokens < WORD / 2
    ensures 1 <= FrontCores(tokens, target) <= target && 0 <= TailCores(tokens, target) <= target - FrontCores(tokens, target)
    ensures FrontCores(tokens, target) * FrontShare(tokens, target) + TailCores(tokens, target) * TailShare(tokens, target) == tokens
    ensures FrontShare(tokens, target) < WORD / 2 && TailShare(tokens, target) < WORD / 2
    ensures TailCores(tokens, target) > 0 ==> TailShare(tokens, target) >= 1 && FrontShare(tokens, target) == TailShare(tokens, target) + 1
    ensures tokens >= 1 <==> FrontShare(tokens, target) >= 1
  {
    CeilIs(tokens, target);
    QuotientBounds(tokens, target);
    ShareIs(tokens, target);
    hide FrontShare, Wrap;
    var q, x := tokens / target, tokens % target;
    if tokens > target {
      if x == 0 { assert target * q == q * target; } else { SumUp(target, q, x); }
    }
  }

  lemma ShareIs(tokens: Word, target: Word)
    requires 1 <= target <= CORES_LARGE && tokens < WORD / 2
    ensures FrontShare(tokens, target) == (tokens + target - 1) / target
  {
    assert Wrap(Wrap(tokens + target) - 1) == tokens + target - 1;
  }

  /** The core counts need no wrapping. */
  lemma CoresFit(tokens: Word, target: Word)
    requires 1 <= target <= CORES_LARGE && tokens < WORD / 2
    ensures tokens > target ==> Wrap(target - FrontCores(tokens, target)) == TailCores(tokens, target)
    ensures Wrap(FrontCores(tokens, target) + TailCores(tokens, target)) == FrontCores(tokens, target) + TailCores(tokens, target)
  {
  }

  lemma SumUp(target: int, q: int, x: int)
    ensures x * (q + 1) + (target - x) * q == q * target + x
  {
  }

  class TilingParams {
    var frontCore: Word
    var tailCore: Word
    var coreNumUse: Word
    var numTokensEachFrontCore: Word
    var loopTimeEachFrontCore: Word
    var numTokensFrontCoreEachLoop: Word
    var numTokensFrontCoreLastLoop: Word
    var numTokensEachTailCore: Word
    var loopTimeEachTailCore: Word
    var numTokensTailCoreEachLoop: Word
    var numTokensTailCoreLastLoop: Word

    constructor () {
      frontCore, tailCore, coreNumUse := 0, 0, 0;
      numTokensEachFrontCore, loopTimeEachFrontCore, numTokensFrontCoreEachLoop, numTokensFrontCoreLastLoop := 0, 0, 0, 0;
      numTokensEachTailCore, loopTimeEachTailCore, numTokensTailCoreEachLoop, numTokensTailCoreLastLoop := 0, 0, 0, 0;
    }

    function Value(): Tiling
      reads this
    {
      Tiling(frontCore, tailCore, coreNumUse,
             Loops(numTokensEachFrontCore, loopTimeEachFrontCore, numTokensFrontCoreEachLoop, numTokensFrontCoreLastLoop),
             Loops(numTokensEachTailCore, loopTimeEachTailCore, numTokensTailCoreEachLoop, numTokensTailCoreLastLoop))
    }

    /** Fill in the tiling. With at least one token it assigns every token once, each core's loops
        do its share, and a loop fits the buffer whenever one token does. */
    method Compute(i: Input)
      requires Usable(i)
      modifies this
      ensures coreNumUse == frontCore + tailCore && 1 <= frontCore && coreNumUse <= TargetCores(i.is310, i.available, i.tokens)
      ensures frontCore * numTokensEachFrontCore + tailCore * numTokensEachTailCore == i.tokens
      ensures tailCore > 0 ==> numTokensEachTailCore >= 1 && numTokensEachFrontCore == numTokensEachTailCore + 1
      ensures DoesShare(Value().front) <==> i.tokens >= 1
      ensures tailCore > 0 ==> DoesShare(Value().tail)
      ensures i.tokens == 0 ==> numTokensEachFrontCore == 0 && numTokensFrontCoreLastLoop == LoopSize(i)
      ensures 0 < PerToken(i) <= UbLimit(i) ==>
        numTokensFrontCoreEachLoop * PerToken(i) <= UbLimit(i) && numTokensTailCoreEachLoop * PerToken(i) <= UbLimit(i)
    {
      hide PerToken, DoesShare, Times, Last, LoopSize, TargetCores, FrontShare, TailShare, FrontCores, TailCores;
      var target := TargetCores(i.is310, i.available, i.tokens);
      var n := LoopSize(i);
      TargetIsSmall(i);
      SharesAddUp(i.tokens, target);
      AssignCores(i.tokens, target);
      LoopFront(n);
      LoopTail(n);
      MulMonotone(numTokensFrontCoreEachLoop, n, PerToken(i));
      MulMonotone(numTokensTailCoreEachLoop, n, PerToken(i));
    }

    method AssignCores(tokens: Word, target: Word)
      requires 1 <= target <= CORES_LARGE && tokens < WORD / 2
      modifies this`frontCore, this`tailCore, this`coreNumUse, this`numTokensEachFrontCore, this`numTokensEachTailCore
      ensures frontCore == FrontCores(tokens, target) && tailCore == TailCores(tokens, target)
      ensures coreNumUse == frontCore + tailCore
      ensures numTokensEachFrontCore == FrontShare(tokens, target) && numTokensEachTailCore == TailShare(tokens, target)
    {
      SharesAddUp(tokens, target);
      CoresFit(tokens, target);
      hide FrontShare;
      frontCore := if tokens % target != 0 then tokens % target else target;
      tailCore := if tokens <= target then 0 else Wrap(target - frontCore);
      coreNumUse := Wrap(frontCore + tailCore);
      numTokensEachFrontCore := ShareOf(tokens, target);
      numTokensEachTailCore := if tokens <= target then 0 else tokens / target;
    }

    method ShareOf(tokens: Word, target: Word) returns (share: Word)
      requires target > 0
      ensures share == FrontShare(tokens, target)
    {
      share := Wrap(Wrap(tokens + target) - 1) / target;
    }

    method LoopFront(n: Word)
      requires 1 <= n <= UB_310 && numTokensEachFrontCore < WORD / 2
      modifies this`loopTimeEachFrontCore, this`numTokensFrontCoreEachLoop, this`numTokensFrontCoreLastLoop
      ensures DoesShare(Value().front) <==> numTokensEachFrontCore >= 1
      ensures numTokensEachFrontCore == 0 ==> numTokensFrontCoreLastLoop == n
      ensures numTokensFrontCoreEachLoop <= n
    {
      hide DoesShare;
      FrontLoops(numTokensEachFrontCore, n);
      loopTimeEachFrontCore := Wrap(Wrap(numTokensEachFrontCore + n) - 1) / n;
      numTokensFrontCoreEachLoop := if loopTimeEachFrontCore == 1 then numTokensEachFrontCore else n;
      numTokensFrontCoreLastLoop := if loopTimeEachFrontCore == 1 then 0
        else Wrap(numTokensEachFrontCore - Wrap(numTokensFrontCoreEachLoop * Wrap(loopTimeEachFrontCore - 1)));
    }

    method LoopTail(n: Word)
      requires 1 <= n <= UB_310 && numTokensEachTailCore < WORD / 2
      modifies this`loopTimeEachTailCore, this`numTokensTailCoreEachLoop, this`numTokensTailCoreLastLoop
      ensures numTokensEachTailCore >= 1 ==> DoesShare(Value().tail)
      ensures numTokensTailCoreEachLoop <= n
    {
      hide DoesShare;
      TailLoops(numTokensEachTailCore, n);
      loopTimeEachTailCore := Wrap(Wrap(numTokensEachTailCore + n) - 1) / n;
      numTokensTailCoreEachLoop := if loopTimeEachTailCore <= 1 then numTokensEachTailCore else n;
      numTokensTailCoreLastLoop := if loopTimeEachTailCore == 1 then 0
        else Wrap(numTokensEachTailCore - Wrap(numTokensTailCoreEachLoop * Wrap(loopTimeEachTailCore - 1)));
    }
  }

  lemma TargetIsSmall(i: Input)
    requires Usable(i)
    ensures 1 <= TargetCores(i.is310, i.available, i.tokens) <= CORES_LARGE
  {
  }
}
