/** How the contract divides an incoming amount: WAX into stake,
    cheesepowerz and swap shares, CHEESE into liquidity and burn shares. Both
    the exact split the model uses and the split a build computes when it
    wraps the int64 product. The two differ once `amount * pct` leaves the
    int64 range, where the C++ code has undefined behaviour. */
module BurnSplit {
  import opened Eosio

  /** ⌊amount · pct / 100⌋, the share `amount * pct / 100` intends. */
  function PercentOf(amount: nat, pct: nat): (r: nat)
    ensures r * 100 <= amount * pct < r * 100 + 100
  {
    amount * pct / 100
  }

  datatype WaxSplit = WaxSplit(stake: int, cheesepowerz: int, swap: int)

  datatype CheeseSplit = CheeseSplit(liquidity: int, burn: int)

  /** 20% staked as CPU, 5% to cheesepowerz, the rest swapped for CHEESE.
      Every unit lands in exactly one share and the swap share, at least 75%
      of the amount, is never empty. */
  function SplitWax(amount: int): (s: WaxSplit)
    requires 0 < amount
    ensures s.stake + s.cheesepowerz + s.swap == amount
    ensures s.stake * 100 <= amount * 20 < s.stake * 100 + 100
    ensures s.cheesepowerz * 100 <= amount * 5 < s.cheesepowerz * 100 + 100
    ensures 0 <= s.stake && 0 <= s.cheesepowerz
    ensures 0 < s.swap <= amount && 4 * s.swap >= 3 * amount
  {
    var stake := PercentOf(amount, 20);
    var cheesepowerz := PercentOf(amount, 5);
    WaxSplit(stake, cheesepowerz, amount - stake - cheesepowerz)
  }

  /** 15% to the liquidity account, the rest burned; the burn share is never
      empty. */
  function SplitCheese(amount: int): (s: CheeseSplit)
    requires 0 < amount
    ensures s.liquidity + s.burn == amount
    ensures s.liquidity * 100 <= amount * 15 < s.liquidity * 100 + 100
    ensures 0 <= s.liquidity && 0 < s.burn <= amount
  {
    var liquidity := PercentOf(amount, 15);
    CheeseSplit(liquidity, amount - liquidity)
  }

  /** `amount * pct / 100` evaluated in int64 by a build that keeps the
      multiplication and wraps it on overflow (an overflow is undefined
      behaviour in C++), followed by division truncating toward zero. */
  function PercentOfAsWritten(amount: int, pct: nat): int
    requires IsInt64(amount)
  {
    TruncDiv(WrapInt64(amount * pct), 100)
  }

  /** The WAX split as a build that keeps the int64 products and wraps them
      computes it (above the overflow threshold the C++ code has undefined
      behaviour). */
  function SplitWaxAsWritten(amount: int): WaxSplit
    requires 0 < amount <= MAX_AMOUNT
  {
    var stake := PercentOfAsWritten(amount, 20);
    var cheesepowerz := PercentOfAsWritten(amount, 5);
    WaxSplit(stake, cheesepowerz, WrapInt64(amount - stake - cheesepowerz))
  }

  /** The CHEESE split as a build that keeps the int64 product and wraps it
      computes it (above the overflow threshold the C++ code has undefined
      behaviour). */
  function SplitCheeseAsWritten(amount: int): CheeseSplit
    requires 0 < amount <= MAX_AMOUNT
  {
    var liquidity := PercentOfAsWritten(amount, 15);
    CheeseSplit(liquidity, WrapInt64(amount - liquidity))
  }

  /** Below the overflow threshold the 64-bit product is exact and the code
      computes the intended share. */
  lemma PercentOfAgrees(amount: nat, pct: nat)
    requires 1 <= pct && amount * pct <= INT64_MAX
    ensures IsInt64(amount) && PercentOfAsWritten(amount, pct) == PercentOf(amount, pct)
  {
    assert amount * pct == amount + amount * (pct - 1);
  }

  /** For every valid amount below 461168601842738791 units (about 4.6
      billion WAX) the code's WAX split is the intended one. */
  lemma SplitWaxAgrees(amount: int)
    requires 0 < amount && amount * 20 <= INT64_MAX
    ensures amount <= MAX_AMOUNT && SplitWaxAsWritten(amount) == SplitWax(amount)
  {
    PercentOfAgrees(amount, 20);
    PercentOfAgrees(amount, 5);
  }

  /** For every valid amount below 614891469123651721 units the code's
      CHEESE split is the intended one. */
  lemma SplitCheeseAgrees(amount: int)
    requires 0 < amount && amount * 15 <= INT64_MAX
    ensures amount <= MAX_AMOUNT && SplitCheeseAsWritten(amount) == SplitCheese(amount)
  {
    PercentOfAgrees(amount, 15);
  }

  /** A valid WAX amount just past the threshold: `amount * 20` overflows
      int64, which is undefined behaviour. A build that wraps the product gets
      a negative stake share (no CPU is staked) and a swap share larger than
      the amount received. A build that folds the constants computes the
      exact split instead (`WaxSplitFolded`). */
  lemma WaxSplitOverflows()
    ensures 461168601842738791 <= MAX_AMOUNT
    ensures SplitWaxAsWritten(461168601842738791).stake == -92233720368547757
    ensures SplitWaxAsWritten(461168601842738791).swap > 461168601842738791
    ensures SplitWax(461168601842738791).stake == 92233720368547758
  {
    var a := 461168601842738791;
    assert a * 20 == 9223372036854775820;
    assert WrapInt64(a * 20) == -9223372036854775796;
    assert WrapInt64(a * 5) == a * 5;
    assert PercentOfAsWritten(a, 5) == 23058430092136939;
  }

  /** A valid CHEESE amount just past the threshold: `amount * 15` overflows
      int64, which is undefined behaviour. A build that wraps the product gets
      a negative liquidity share and a burn share larger than the amount
      received. */
  lemma CheeseSplitOverflows()
    ensures 614891469123651721 <= MAX_AMOUNT
    ensures SplitCheeseAsWritten(614891469123651721).liquidity < 0
    ensures SplitCheeseAsWritten(614891469123651721).burn > 614891469123651721
    ensures SplitCheese(614891469123651721).liquidity == 92233720368547758
  {
    var a := 614891469123651721;
    assert a * 15 == 9223372036854775815;
    assert WrapInt64(a * 15) == -9223372036854775801;
  }

  /** A build that folds the constants turns `amount * 20 / 100` into
      `amount / 5` and `amount * 5 / 100` into `amount / 20`, with no
      intermediate product to overflow; for every positive amount that is
      exactly the intended split. */
  lemma WaxSplitFolded(amount: int)
    requires 0 < amount
    ensures TruncDiv(amount, 5) == SplitWax(amount).stake
    ensures TruncDiv(amount, 20) == SplitWax(amount).cheesepowerz
  {
    var q5, q20 := amount / 5, amount / 20;
    assert amount == q5 * 5 + amount % 5;
    assert amount * 20 == q5 * 100 + (amount % 5) * 20;
    assert amount == q20 * 20 + amount % 20;
    assert amount * 5 == q20 * 100 + (amount % 20) * 5;
  }
}
