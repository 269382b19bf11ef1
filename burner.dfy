/** The `cheeseburner` contract's actions over its four single-row tables.
    Each action either applies completely or aborts (a failed runtime check
    reverts the whole transaction), and inline actions it sends are appended
    to an outbox instead of being executed. */
module Burner {
  import opened Results
  import opened Eosio
  import opened BurnerTables
  import opened BurnSplit
  import opened Text

  /** An inline action the contract sends, with its own `active` authority. */
  datatype InlineAction =
    | ClaimGbmVote(owner: Name)                                          // eosio::claimgbmvote
    | DelegateBw(from: Name, receiver: Name, stakeNet: Asset, stakeCpu: Asset, transfer: bool)  // eosio::delegatebw
    | Transfer(contract: Name, from: Name, to: Name, quantity: Asset, memo: string)  // <contract>::transfer
    | BurnLog(caller: Name, waxClaimed: Asset, waxSwapped: Asset, cheeseBurned: Asset)  // cheeseburner::logburn

  /** How an action or notification ended. */
  datatype Outcome = Applied | Ignored | Aborted(reason: string)

  /** The contract's tables and the actions sent so far, as one value. */
  datatype State = State(
    config: Option<ConfigRow>,
    pending: Option<PendingBurnRow>,
    stats: Option<StatsRow>,
    cpower: Option<CpowerStatsRow>,
    outbox: seq<InlineAction>)

  const NOT_CONFIGURED: string := "Contract not configured. Run setconfig first."

  function MissingAuthority(n: Name): string { "missing authority of " + n }

  /** What `setconfig` guarantees of a stored configuration. */
  predicate ValidConfig(c: ConfigRow) {
    0 < c.alcorPoolId && IsUint64(c.alcorPoolId) && c.minWaxToBurn.sym == WAX_SYMBOL && 0 <= c.minWaxToBurn.amount
  }

  /** WAX totals are in WAX and CHEESE totals in CHEESE. */
  predicate StatsSymbols(row: StatsRow) {
    && row.totalWaxClaimed.sym == WAX_SYMBOL
    && row.totalWaxStaked.sym == WAX_SYMBOL
    && row.totalCheeseBurned.sym == CHEESE_SYMBOL
    && row.totalCheeseRewards.sym == CHEESE_SYMBOL
    && row.totalCheeseLiquidity.sym == CHEESE_SYMBOL
  }

  /** The invariant every action preserves. */
  predicate Consistent(s: State) {
    && (s.config.Some? ==> ValidConfig(s.config.value))
    && (s.pending.Some? ==> s.pending.value.waxClaimed.sym == WAX_SYMBOL && s.pending.value.waxSwapped.sym == WAX_SYMBOL)
    && (s.stats.Some? ==> StatsSymbols(s.stats.value))
    && (s.cpower.Some? ==> s.cpower.value.totalWaxCheesepowerz.sym == WAX_SYMBOL)
  }

  // ---------------------------------------------------------------- stats

  /** The arguments of one `update_stats` call. */
  datatype StatsDelta = StatsDelta(
    waxClaimed: Asset,
    waxStaked: Asset,
    cheeseBurned: Asset,
    cheeseReward: Asset,
    cheeseLiquidity: Asset,
    countBurn: bool)

  predicate DeltaSymbols(d: StatsDelta) {
    && d.waxClaimed.sym == WAX_SYMBOL && d.waxStaked.sym == WAX_SYMBOL
    && d.cheeseBurned.sym == CHEESE_SYMBOL && d.cheeseReward.sym == CHEESE_SYMBOL
    && d.cheeseLiquidity.sym == CHEESE_SYMBOL
  }

  function BurnIncrement(countBurn: bool): nat { if countBurn then 1 else 0 }

  const EMPTY_STATS: StatsRow := StatsRow(0, Asset(0, WAX_SYMBOL), Asset(0, WAX_SYMBOL),
    Asset(0, CHEESE_SYMBOL), Asset(0, CHEESE_SYMBOL), Asset(0, CHEESE_SYMBOL))

  /** The stats row after `update_stats`: created from the arguments when
      absent, otherwise each total grown by its argument. */
  function StatsAfter(current: Option<StatsRow>, d: StatsDelta): Result<StatsRow> {
    match current
    case None =>
      Ok(StatsRow(BurnIncrement(d.countBurn), d.waxClaimed, d.waxStaked, d.cheeseBurned, d.cheeseReward, d.cheeseLiquidity))
    case Some(row) =>
      var waxClaimed :- Add(row.totalWaxClaimed, d.waxClaimed);
      var waxStaked :- Add(row.totalWaxStaked, d.waxStaked);
      var cheeseBurned :- Add(row.totalCheeseBurned, d.cheeseBurned);
      var cheeseRewards :- Add(row.totalCheeseRewards, d.cheeseReward);
      var cheeseLiquidity :- Add(row.totalCheeseLiquidity, d.cheeseLiquidity);
      Ok(StatsRow(row.totalBurns + BurnIncrement(d.countBurn), waxClaimed, waxStaked, cheeseBurned, cheeseRewards, cheeseLiquidity))
  }

  function BurnCount(stats: Option<StatsRow>): nat {
    if stats.Some? then stats.value.totalBurns else 0
  }

  /** Each total moves by exactly its argument, `total_burns` by one iff the
      call counts a burn; the only failure is a total leaving the asset range,
      never a WAX total meeting a CHEESE amount. */
  lemma StatsAfterAccumulates(current: Option<StatsRow>, d: StatsDelta)
    requires current.Some? ==> StatsSymbols(current.value)
    requires DeltaSymbols(d)
    ensures var base := if current.Some? then current.value else EMPTY_STATS;
      match StatsAfter(current, d)
      case Ok(r) =>
        && StatsSymbols(r)
        && r.totalBurns == base.totalBurns + BurnIncrement(d.countBurn)
        && r.totalWaxClaimed.amount == base.totalWaxClaimed.amount + d.waxClaimed.amount
        && r.totalWaxStaked.amount == base.totalWaxStaked.amount + d.waxStaked.amount
        && r.totalCheeseBurned.amount == base.totalCheeseBurned.amount + d.cheeseBurned.amount
        && r.totalCheeseRewards.amount == base.totalCheeseRewards.amount + d.cheeseReward.amount
        && r.totalCheeseLiquidity.amount == base.totalCheeseLiquidity.amount + d.cheeseLiquidity.amount
      case Err(m) => current.Some? && m in {"addition overflow", "addition underflow"}
  {
  }

  /** Creating the row from the arguments is the same as adding them to a
      row of zero totals. */
  lemma StatsCreationIsAdditionToEmpty(d: StatsDelta)
    requires DeltaSymbols(d)
    requires InRange(d.waxClaimed.amount) && InRange(d.waxStaked.amount) && InRange(d.cheeseBurned.amount)
    requires InRange(d.cheeseReward.amount) && InRange(d.cheeseLiquidity.amount)
    ensures StatsAfter(None, d) == StatsAfter(Some(EMPTY_STATS), d)
  {
  }

  /** The cpowerstats row after `update_cpowerstats`. */
  function CpowerAfter(current: Option<CpowerStatsRow>, waxSent: Asset): Result<CpowerStatsRow> {
    match current
    case None => Ok(CpowerStatsRow(waxSent))
    case Some(row) =>
      var total :- Add(row.totalWaxCheesepowerz, waxSent);
      Ok(CpowerStatsRow(total))
  }

  function CpowerTotal(cpower: Option<CpowerStatsRow>): int {
    if cpower.Some? then cpower.value.totalWaxCheesepowerz.amount else 0
  }

  /** The cheesepowerz total grows by exactly the WAX sent. */
  lemma CpowerAfterAccumulates(current: Option<CpowerStatsRow>, waxSent: Asset)
    requires current.Some? ==> current.value.totalWaxCheesepowerz.sym == WAX_SYMBOL
    requires waxSent.sym == WAX_SYMBOL
    ensures match CpowerAfter(current, waxSent)
      case Ok(r) => r.totalWaxCheesepowerz.sym == WAX_SYMBOL && r.totalWaxCheesepowerz.amount == CpowerTotal(current) + waxSent.amount
      case Err(m) => current.Some? && m in {"addition overflow", "addition underflow"}
  {
  }

  // ------------------------------------------------------- inline actions

  /** The memo that asks Alcor to swap the attached WAX for CHEESE in pool
      `poolId` and send the proceeds to `recipient`, with no minimum output. */
  function SwapMemo(poolId: nat, recipient: Name): string {
    "swapexactin#" + NatToDecimal(poolId) + "#" + recipient + "#0.0000 CHEESE@cheeseburger" + "#0"
  }

  /** The memo's '#'-separated fields read back as the operation, the pool
      id, the recipient, the minimum output and the deadline. */
  lemma SwapMemoFields(poolId: nat, recipient: Name)
    requires ValidName(recipient)
    ensures Split(SwapMemo(poolId, recipient), '#')
      == ["swapexactin", NatToDecimal(poolId), recipient, "0.0000 CHEESE@cheeseburger", "0"]
    ensures ParseDecimal(Split(SwapMemo(poolId, recipient), '#')[1]) == Some(poolId)
  {
    var id := NatToDecimal(poolId);
    var fields := ["swapexactin", id, recipient, "0.0000 CHEESE@cheeseburger", "0"];
    NameHasNoHash(recipient);
    DecimalRoundTrip(poolId);
    SwapMemoIsJoin(id, recipient);
    assert '#' !in id;
    SplitJoin(fields, '#');
  }

  lemma SwapMemoIsJoin(id: string, recipient: Name)
    ensures "swapexactin#" + id + "#" + recipient + "#0.0000 CHEESE@cheeseburger" + "#0"
      == Join(["swapexactin", id, recipient, "0.0000 CHEESE@cheeseburger", "0"], '#')
  {
    var op, limit, deadline := "swapexactin", "0.0000 CHEESE@cheeseburger", "0";
    JoinFive(op, id, recipient, limit, deadline, '#');
    assert "swapexactin#" == op + ['#'];
    assert "#0.0000 CHEESE@cheeseburger" == ['#'] + limit;
    assert "#0" == ['#'] + deadline;
    assert "#" == ['#'];
  }

  function BurnTransfer(account: Name, quantity: Asset): InlineAction {
    Transfer(CHEESE_CONTRACT, account, BURN_ACCOUNT, quantity, "CHEESE burned via cheeseburner")
  }

  /** The actions a WAX vote-reward payment sends, in order. */
  function WaxTransferActions(account: Name, poolId: nat, sp: WaxSplit): seq<InlineAction> {
    (if sp.stake > 0 then [DelegateBw(account, account, Asset(0, WAX_SYMBOL), Asset(sp.stake, WAX_SYMBOL), false)] else [])
    + (if sp.cheesepowerz > 0
       then [Transfer(EOSIO_TOKEN, account, CHEESEPOWERZ_ACCOUNT, Asset(sp.cheesepowerz, WAX_SYMBOL), "cheesepowerz allocation")]
       else [])
    + [Transfer(EOSIO_TOKEN, account, ALCOR_SWAP_CONTRACT, Asset(sp.swap, WAX_SYMBOL), SwapMemo(poolId, account))]
  }

  /** The actions an incoming CHEESE swap output sends, in order. */
  function CheeseTransferActions(account: Name, burnInfo: PendingBurnRow, sp: CheeseSplit): seq<InlineAction> {
    (if sp.liquidity > 0
     then [Transfer(CHEESE_CONTRACT, account, CHEESE_LIQ_ACCOUNT, Asset(sp.liquidity, CHEESE_SYMBOL), "CHEESE liquidity allocation")]
     else [])
    + [BurnTransfer(account, Asset(sp.burn, CHEESE_SYMBOL))]
    + [BurnLog(burnInfo.caller, burnInfo.waxClaimed, burnInfo.waxSwapped, Asset(sp.burn, CHEESE_SYMBOL))]
  }

  /** How much of `sym` one action takes out of the contract's liquid balance. */
  function ActionSpend(a: InlineAction, sym: Symbol): int {
    match a
    case DelegateBw(_, _, net, cpu, _) =>
      (if net.sym == sym then net.amount else 0) + (if cpu.sym == sym then cpu.amount else 0)
    case Transfer(_, _, _, q, _) => if q.sym == sym then q.amount else 0
    case _ => 0
  }

  function Spent(acts: seq<InlineAction>, sym: Symbol): int
    decreases |acts|
  {
    if |acts| == 0 then 0 else ActionSpend(acts[0], sym) + Spent(acts[1..], sym)
  }

  lemma {:induction false} SpentConcat(a: seq<InlineAction>, b: seq<InlineAction>, sym: Symbol)
    ensures Spent(a + b, sym) == Spent(a, sym) + Spent(b, sym)
    decreases |a|
  {
    if |a| > 0 {
      assert (a + b)[1..] == a[1..] + b;
      SpentConcat(a[1..], b, sym);
    } else {
      assert a + b == b;
    }
  }

  /** Every unit of an incoming WAX payment leaves in exactly one emitted
      action and no CHEESE moves; the swap transfer, with a positive amount
      and the Alcor memo, is always sent and always last; CPU is staked and
      cheesepowerz paid exactly when their shares are positive. */
  lemma WaxTransferActionsShape(account: Name, poolId: nat, amount: int)
    requires 0 < amount
    ensures var sp := SplitWax(amount);
      var acts := WaxTransferActions(account, poolId, sp);
      && Spent(acts, WAX_SYMBOL) == amount
      && Spent(acts, CHEESE_SYMBOL) == 0
      && |acts| >= 1
      && acts[|acts| - 1] == Transfer(EOSIO_TOKEN, account, ALCOR_SWAP_CONTRACT, Asset(sp.swap, WAX_SYMBOL), SwapMemo(poolId, account))
      && sp.swap > 0
      && ((exists i :: 0 <= i < |acts| && acts[i].DelegateBw?) <==> sp.stake > 0)
      && ((exists i :: 0 <= i < |acts| && acts[i].Transfer? && acts[i].to == CHEESEPOWERZ_ACCOUNT) <==> sp.cheesepowerz > 0)
  {
    var sp := SplitWax(amount);
    var s1: seq<InlineAction> := if sp.stake > 0 then [DelegateBw(account, account, Asset(0, WAX_SYMBOL), Asset(sp.stake, WAX_SYMBOL), false)] else [];
    var s2: seq<InlineAction> := if sp.cheesepowerz > 0
       then [Transfer(EOSIO_TOKEN, account, CHEESEPOWERZ_ACCOUNT, Asset(sp.cheesepowerz, WAX_SYMBOL), "cheesepowerz allocation")]
       else [];
    var s3 := [Transfer(EOSIO_TOKEN, account, ALCOR_SWAP_CONTRACT, Asset(sp.swap, WAX_SYMBOL), SwapMemo(poolId, account))];
    var acts := WaxTransferActions(account, poolId, sp);
    assert acts == s1 + s2 + s3;
    SpentConcat(s1 + s2, s3, WAX_SYMBOL);
    SpentConcat(s1, s2, WAX_SYMBOL);
    SpentConcat(s1 + s2, s3, CHEESE_SYMBOL);
    SpentConcat(s1, s2, CHEESE_SYMBOL);
    if sp.stake > 0 {
      assert acts[0].DelegateBw?;
    }
    if sp.cheesepowerz > 0 {
      assert acts[|s1|].Transfer? && acts[|s1|].to == CHEESEPOWERZ_ACCOUNT;
    }
  }

  /** Every unit of an incoming CHEESE payment leaves in exactly one emitted
      transfer and no WAX moves; the burn transfer to eosio.null is always
      sent with a positive amount; the liquidity transfer is sent exactly
      when its share is positive; the last action logs the pending burn's
      caller and WAX figures with the amount burned. */
  lemma CheeseTransferActionsShape(account: Name, burnInfo: PendingBurnRow, amount: int)
    requires 0 < amount
    ensures var sp := SplitCheese(amount);
      var acts := CheeseTransferActions(account, burnInfo, sp);
      && Spent(acts, CHEESE_SYMBOL) == amount
      && Spent(acts, WAX_SYMBOL) == 0
      && |acts| >= 2
      && acts[|acts| - 2] == BurnTransfer(account, Asset(sp.burn, CHEESE_SYMBOL))
      && sp.burn > 0
      && acts[|acts| - 1] == BurnLog(burnInfo.caller, burnInfo.waxClaimed, burnInfo.waxSwapped, Asset(sp.burn, CHEESE_SYMBOL))
      && ((exists i :: 0 <= i < |acts| && acts[i].Transfer? && acts[i].to == CHEESE_LIQ_ACCOUNT) <==> sp.liquidity > 0)
  {
    var sp := SplitCheese(amount);
    var s1: seq<InlineAction> := if sp.liquidity > 0
     then [Transfer(CHEESE_CONTRACT, account, CHEESE_LIQ_ACCOUNT, Asset(sp.liquidity, CHEESE_SYMBOL), "CHEESE liquidity allocation")]
     else [];
    var s2 := [BurnTransfer(account, Asset(sp.burn, CHEESE_SYMBOL))];
    var s3 := [BurnLog(burnInfo.caller, burnInfo.waxClaimed, burnInfo.waxSwapped, Asset(sp.burn, CHEESE_SYMBOL))];
    var acts := CheeseTransferActions(account, burnInfo, sp);
    assert acts == s1 + s2 + s3;
    SpentConcat(s1 + s2, s3, CHEESE_SYMBOL);
    SpentConcat(s1, s2, CHEESE_SYMBOL);
    SpentConcat(s1 + s2, s3, WAX_SYMBOL);
    SpentConcat(s1, s2, WAX_SYMBOL);
    if sp.liquidity > 0 {
      assert acts[0].Transfer? && acts[0].to == CHEESE_LIQ_ACCOUNT;
    }
  }

  // -------------------------------------------------------------- outcomes

  /** Which check of `setconfig` fails first, if any. */
  function SetConfigOutcome(current: Option<ConfigRow>, account: Name, auths: set<Name>, accounts: set<Name>,
                            admin: Name, alcorPoolId: nat, minWaxToBurn: Asset): Outcome
  {
    var authority := if current.Some? then current.value.admin else account;
    if authority !in auths then Aborted(MissingAuthority(authority))
    else if admin !in accounts then Aborted("Admin account does not exist")
    else if alcorPoolId == 0 then Aborted("Invalid Alcor pool ID")
    else if minWaxToBurn.sym != WAX_SYMBOL then Aborted("min_wax_to_burn must be in WAX")
    else if minWaxToBurn.amount < 0 then Aborted("min_wax_to_burn cannot be negative")
    else Applied
  }

  /** `setconfig` applies exactly when it carries the stored admin's
      authority (the contract's own before any configuration exists), the
      admin account exists, the pool id is non-zero and the minimum is a
      non-negative WAX amount. */
  lemma SetConfigAppliedIff(current: Option<ConfigRow>, account: Name, auths: set<Name>, accounts: set<Name>,
                            admin: Name, alcorPoolId: nat, minWaxToBurn: Asset)
    ensures SetConfigOutcome(current, account, auths, accounts, admin, alcorPoolId, minWaxToBurn).Applied?
      <==> && (current.Some? ==> current.value.admin in auths)
           && (current.None? ==> account in auths)
           && admin in accounts && alcorPoolId > 0
           && minWaxToBurn.sym == WAX_SYMBOL && minWaxToBurn.amount >= 0
    ensures !SetConfigOutcome(current, account, auths, accounts, admin, alcorPoolId, minWaxToBurn).Ignored?
  {
  }

  /** Which check of `burn` fails first, if any. */
  function BurnOutcome(config: Option<ConfigRow>, auths: set<Name>, caller: Name): Outcome {
    if caller !in auths then Aborted(MissingAuthority(caller))
    else if config.None? then Aborted(NOT_CONFIGURED)
    else if !config.value.enabled then Aborted("Burns are currently disabled")
    else Applied
  }

  /** `burn` applies exactly when it carries the caller's authority and the
      contract is configured with burns enabled; it never returns early. */
  lemma BurnAppliedIff(config: Option<ConfigRow>, auths: set<Name>, caller: Name)
    ensures BurnOutcome(config, auths, caller).Applied?
      <==> caller in auths && config.Some? && config.value.enabled
    ensures !BurnOutcome(config, auths, caller).Ignored?
    ensures caller !in auths ==> BurnOutcome(config, auths, caller) == Aborted(MissingAuthority(caller))
  {
  }

  /** The stats delta of a WAX vote-reward payment. */
  function WaxStatsDelta(quantity: Asset, sp: WaxSplit): StatsDelta {
    StatsDelta(quantity, Asset(sp.stake, WAX_SYMBOL), Asset(0, CHEESE_SYMBOL), Asset(0, CHEESE_SYMBOL), Asset(0, CHEESE_SYMBOL), false)
  }

  /** The stats delta of an incoming swap output: a completed burn. */
  function CheeseStatsDelta(sp: CheeseSplit): StatsDelta {
    StatsDelta(Asset(0, WAX_SYMBOL), Asset(0, WAX_SYMBOL), Asset(sp.burn, CHEESE_SYMBOL), Asset(0, CHEESE_SYMBOL),
      Asset(sp.liquidity, CHEESE_SYMBOL), true)
  }

  /** How the WAX transfer notification ends: ignored, the first failing
      check, or applied. */
  function WaxTransferOutcome(s: State, account: Name, from: Name, to: Name, quantity: Asset): Outcome {
    if to != account || from == account then Ignored
    else if from !in VOTE_REWARD_SOURCES then Ignored
    else if quantity.sym != WAX_SYMBOL then Aborted("Only WAX tokens expected")
    else if quantity.amount <= 0 then Aborted("Amount must be positive")
    else if s.pending.None? then Aborted("No pending burn found - call burn() first")
    else if s.config.None? then Aborted(NOT_CONFIGURED)
    else WaxDistributionOutcome(s, quantity)
  }

  /** Whether recording a positive WAX payment overflows a running total. */
  function WaxDistributionOutcome(s: State, quantity: Asset): Outcome
    requires 0 < quantity.amount
  {
    var sp := SplitWax(quantity.amount);
    var st := StatsAfter(s.stats, WaxStatsDelta(quantity, sp));
    if sp.cheesepowerz > 0 && CpowerAfter(s.cpower, Asset(sp.cheesepowerz, WAX_SYMBOL)).Err? then
      Aborted(CpowerAfter(s.cpower, Asset(sp.cheesepowerz, WAX_SYMBOL)).msg)
    else if st.Err? then Aborted(st.msg)
    else Applied
  }

  /** The WAX handler ignores outgoing transfers, self-transfers and payers
      other than the three vote-reward accounts; it applies to any other
      payment exactly when that is a positive WAX amount, a burn is pending,
      the contract is configured and no running total overflows. */
  lemma WaxTransferOutcomeCases(s: State, account: Name, from: Name, to: Name, quantity: Asset)
    requires Consistent(s)
    ensures WaxTransferOutcome(s, account, from, to, quantity).Ignored?
      <==> to != account || from == account || from !in VOTE_REWARD_SOURCES
    ensures WaxTransferOutcome(s, account, from, to, quantity).Applied? ==>
      && quantity.sym == WAX_SYMBOL && quantity.amount > 0 && s.pending.Some? && s.config.Some?
    ensures var r := WaxTransferOutcome(s, account, from, to, quantity);
      r.Aborted? && quantity.sym == WAX_SYMBOL && quantity.amount > 0 && s.pending.Some? && s.config.Some?
      ==> r.reason in {"addition overflow", "addition underflow"}
  {
    if to == account && from != account && from in VOTE_REWARD_SOURCES && quantity.sym == WAX_SYMBOL
      && quantity.amount > 0 && s.pending.Some? && s.config.Some? {
      var sp := SplitWax(quantity.amount);
      if sp.cheesepowerz > 0 {
        CpowerAfterAccumulates(s.cpower, Asset(sp.cheesepowerz, WAX_SYMBOL));
      }
      StatsAfterAccumulates(s.stats, WaxStatsDelta(quantity, sp));
    }
  }

  /** How the CHEESE transfer notification ends. */
  function CheeseTransferOutcome(s: State, account: Name, from: Name, to: Name, quantity: Asset): Outcome {
    if to != account || from == account then Ignored
    else if from != ALCOR_SWAP_CONTRACT then Aborted("This contract only accepts CHEESE from Alcor swaps")
    else if quantity.sym != CHEESE_SYMBOL then Aborted("Only CHEESE tokens accepted")
    else if quantity.amount <= 0 then Aborted("Amount must be positive")
    else if s.pending.None? then Aborted("No pending burn found")
    else CheeseDistributionOutcome(s, quantity)
  }

  /** Whether recording a positive CHEESE payment overflows a running total. */
  function CheeseDistributionOutcome(s: State, quantity: Asset): Outcome
    requires 0 < quantity.amount
  {
    var st := StatsAfter(s.stats, CheeseStatsDelta(SplitCheese(quantity.amount)));
    if st.Err? then Aborted(st.msg) else Applied
  }

  /** The CHEESE handler ignores only outgoing and self transfers; every
      other incoming transfer aborts unless it comes from the Alcor swap
      contract as a positive CHEESE amount while a burn is pending. */
  lemma CheeseTransferOutcomeCases(s: State, account: Name, from: Name, to: Name, quantity: Asset)
    requires Consistent(s)
    ensures CheeseTransferOutcome(s, account, from, to, quantity).Ignored? <==> to != account || from == account
    ensures to == account && from != account && from != ALCOR_SWAP_CONTRACT ==>
      CheeseTransferOutcome(s, account, from, to, quantity) == Aborted("This contract only accepts CHEESE from Alcor swaps")
    ensures CheeseTransferOutcome(s, account, from, to, quantity).Applied? ==>
      && from == ALCOR_SWAP_CONTRACT && quantity.sym == CHEESE_SYMBOL && quantity.amount > 0 && s.pending.Some?
    ensures var r := CheeseTransferOutcome(s, account, from, to, quantity);
      r.Aborted? && to == account && from == ALCOR_SWAP_CONTRACT && quantity.sym == CHEESE_SYMBOL
        && quantity.amount > 0 && s.pending.Some?
      ==> r.reason in {"addition overflow", "addition underflow"}
  {
    if to == account && from == ALCOR_SWAP_CONTRACT && from != account && quantity.sym == CHEESE_SYMBOL
      && quantity.amount > 0 && s.pending.Some? {
      StatsAfterAccumulates(s.stats, CheeseStatsDelta(SplitCheese(quantity.amount)));
    }
  }

  /** The tables and outbox after a positive WAX payment `quantity` is
      recorded: the pending burn keeps its caller and notes the payment and
      the swapped share, the stats grow by the payment and the staked share
      without counting a burn, the cheesepowerz total grows by exactly its
      share, and the split's actions are sent. */
  ghost predicate WaxPaymentRecorded(before: State, after: State, account: Name, poolId: nat, quantity: Asset)
    requires 0 < quantity.amount
  {
    var sp := SplitWax(quantity.amount);
    && before.pending.Some?
    && after.config == before.config
    && after.pending == Some(before.pending.value.(waxClaimed := quantity, waxSwapped := Asset(sp.swap, WAX_SYMBOL)))
    && after.stats.Some? && StatsAfter(before.stats, WaxStatsDelta(quantity, sp)) == Ok(after.stats.value)
    && (sp.cheesepowerz > 0 ==> after.cpower.Some? && CpowerAfter(before.cpower, Asset(sp.cheesepowerz, WAX_SYMBOL)) == Ok(after.cpower.value))
    && (sp.cheesepowerz == 0 ==> after.cpower == before.cpower)
    && after.outbox == before.outbox + WaxTransferActions(account, poolId, sp)
    && BurnCount(after.stats) == BurnCount(before.stats)
    && CpowerTotal(after.cpower) == CpowerTotal(before.cpower) + sp.cheesepowerz
  }

  /** The tables and outbox after a positive CHEESE payment is recorded: the
      stats count one more burn and grow by the burned and liquidity shares,
      the split's actions and the burn log are sent, and no burn is pending. */
  ghost predicate CheesePaymentRecorded(before: State, after: State, account: Name, quantity: Asset)
    requires 0 < quantity.amount
  {
    var sp := SplitCheese(quantity.amount);
    && before.pending.Some?
    && after.config == before.config && after.cpower == before.cpower
    && after.pending.None?
    && after.stats.Some? && StatsAfter(before.stats, CheeseStatsDelta(sp)) == Ok(after.stats.value)
    && after.outbox == before.outbox + CheeseTransferActions(account, before.pending.value, sp)
    && BurnCount(after.stats) == BurnCount(before.stats) + 1
  }

  /** A whole burn cycle, from the pending row `burn` leaves through the WAX
      payment to the CHEESE swap output: it counts exactly one burn, leaves
      nothing pending and the configuration as it was, and its last action
      logs the original caller with the WAX claimed, the WAX swapped and the
      CHEESE burned. */
  lemma BurnCycleLogsCaller(s1: State, s2: State, s3: State, account: Name, poolId: nat, caller: Name, now: nat,
                            wax: Asset, cheese: Asset)
    requires s1.pending == Some(PendingBurnRow(caller, now, Asset(0, WAX_SYMBOL), Asset(0, WAX_SYMBOL)))
    requires 0 < wax.amount && 0 < cheese.amount
    requires WaxPaymentRecorded(s1, s2, account, poolId, wax)
    requires CheesePaymentRecorded(s2, s3, account, cheese)
    ensures s3.pending.None? && s3.config == s1.config
    ensures BurnCount(s3.stats) == BurnCount(s1.stats) + 1
    ensures |s3.outbox| > 0 && s3.outbox[|s3.outbox| - 1]
      == BurnLog(caller, wax, Asset(SplitWax(wax.amount).swap, WAX_SYMBOL), Asset(SplitCheese(cheese.amount).burn, CHEESE_SYMBOL))
  {
    CheeseTransferActionsShape(account, s2.pending.value, cheese.amount);
  }

  // ------------------------------------------------------------- contract

  class CheeseBurner {
    /** The account the contract is deployed to (`get_self()`). */
    const account: Name
    var config: Option<ConfigRow>
    var pending: Option<PendingBurnRow>
    var stats: Option<StatsRow>
    var cpower: Option<CpowerStatsRow>
    /** Inline actions sent, oldest first. */
    var outbox: seq<InlineAction>

    function Snapshot(): State
      reads this
    {
      State(config, pending, stats, cpower, outbox)
    }

    ghost predicate Valid()
      reads this
    {
      ValidName(account) && Consistent(Snapshot())
    }

    /** A freshly deployed contract: every table empty, nothing sent. */
    constructor (account: Name)
      requires ValidName(account)
      ensures Valid() && this.account == account
      ensures Snapshot() == State(None, None, None, None, [])
    {
      this.account := account;
      config, pending, stats, cpower, outbox := None, None, None, None, [];
    }

    /** Undoes everything the current action changed: a failed check. */
    method Revert(saved: State)
      modifies this
      ensures Snapshot() == saved
    {
      config, pending, stats, cpower, outbox := saved.config, saved.pending, saved.stats, saved.cpower, saved.outbox;
    }

    /** The stored configuration, or the abort a missing one causes. */
    method GetConfig() returns (r: Result<ConfigRow>)
      requires Valid()
      ensures r.Ok? <==> config.Some?
      ensures r.Ok? ==> r.value == config.value && ValidConfig(r.value)
      ensures r.Err? ==> r.msg == NOT_CONFIGURED
    {
      if config.None? {
        return Err(NOT_CONFIGURED);
      }
      return Ok(config.value);
    }

    method SetConfig(auths: set<Name>, accounts: set<Name>, admin: Name, alcorPoolId: nat, enabled: bool,
                     minWaxToBurn: Asset) returns (r: Outcome)
      requires Valid() && IsUint64(alcorPoolId)
      modifies this
      ensures Valid()
      ensures r == SetConfigOutcome(old(config), account, auths, accounts, admin, alcorPoolId, minWaxToBurn)
      ensures r.Applied? ==> Snapshot() == old(Snapshot()).(config := Some(ConfigRow(admin, alcorPoolId, enabled, minWaxToBurn)))
      ensures !r.Applied? ==> Snapshot() == old(Snapshot())
    {
      var authority := if config.Some? then config.value.admin else account;
      if authority !in auths {
        return Aborted(MissingAuthority(authority));
      }
      if admin !in accounts {
        return Aborted("Admin account does not exist");
      }
      if alcorPoolId == 0 {
        return Aborted("Invalid Alcor pool ID");
      }
      if minWaxToBurn.sym != WAX_SYMBOL {
        return Aborted("min_wax_to_burn must be in WAX");
      }
      if minWaxToBurn.amount < 0 {
        return Aborted("min_wax_to_burn cannot be negative");
      }
      config := Some(ConfigRow(admin, alcorPoolId, enabled, minWaxToBurn));
      return Applied;
    }

    /** Records `caller` as the pending burn, replacing any earlier one, and
      asks the system contract for the vote reward. */
    method Burn(auths: set<Name>, now: nat, caller: Name) returns (r: Outcome)
      requires Valid()
      modifies this
      ensures Valid()
      ensures r == BurnOutcome(old(config), auths, caller)
      ensures r.Applied? ==> Snapshot() == old(Snapshot()).(
        pending := Some(PendingBurnRow(caller, now, Asset(0, WAX_SYMBOL), Asset(0, WAX_SYMBOL))),
        outbox := old(outbox) + [ClaimGbmVote(account)])
      ensures !r.Applied? ==> Snapshot() == old(Snapshot())
    {
      if caller !in auths {
        return Aborted(MissingAuthority(caller));
      }
      var cfg := GetConfig();
      if cfg.Err? {
        return Aborted(cfg.msg);
      }
      if !cfg.value.enabled {
        return Aborted("Burns are currently disabled");
      }
      pending := Some(PendingBurnRow(caller, now, Asset(0, WAX_SYMBOL), Asset(0, WAX_SYMBOL)));
      outbox := outbox + [ClaimGbmVote(account)];
      return Applied;
    }

    /** `update_stats`: emplace the row from the arguments, or add each
      argument to its total. */
    method UpdateStats(d: StatsDelta) returns (err: Option<string>)
      modifies this`stats
      ensures match StatsAfter(old(stats), d)
        case Ok(row) => err.None? && stats == Some(row)
        case Err(m) => err == Some(m) && stats == old(stats)
    {
      if stats.None? {
        stats := Some(StatsRow(BurnIncrement(d.countBurn), d.waxClaimed, d.waxStaked, d.cheeseBurned, d.cheeseReward, d.cheeseLiquidity));
        return None;
      }
      var row := stats.value;
      if d.countBurn {
        row := row.(totalBurns := row.totalBurns + 1);
      }
      var sum := Add(row.totalWaxClaimed, d.waxClaimed);
      if sum.Err? { return Some(sum.msg); }
      row := row.(totalWaxClaimed := sum.value);
      sum := Add(row.totalWaxStaked, d.waxStaked);
      if sum.Err? { return Some(sum.msg); }
      row := row.(totalWaxStaked := sum.value);
      sum := Add(row.totalCheeseBurned, d.cheeseBurned);
      if sum.Err? { return Some(sum.msg); }
      row := row.(totalCheeseBurned := sum.value);
      sum := Add(row.totalCheeseRewards, d.cheeseReward);
      if sum.Err? { return Some(sum.msg); }
      row := row.(totalCheeseRewards := sum.value);
      sum := Add(row.totalCheeseLiquidity, d.cheeseLiquidity);
      if sum.Err? { return Some(sum.msg); }
      row := row.(totalCheeseLiquidity := sum.value);
      stats := Some(row);
      return None;
    }

    /** `update_cpowerstats`: emplace the row, or add to its total. */
    method UpdateCpowerStats(waxSent: Asset) returns (err: Option<string>)
      modifies this`cpower
      ensures match CpowerAfter(old(cpower), waxSent)
        case Ok(row) => err.None? && cpower == Some(row)
        case Err(m) => err == Some(m) && cpower == old(cpower)
    {
      if cpower.None? {
        cpower := Some(CpowerStatsRow(waxSent));
        return None;
      }
      var sum := Add(cpower.value.totalWaxCheesepowerz, waxSent);
      if sum.Err? { return Some(sum.msg); }
      cpower := Some(CpowerStatsRow(sum.value));
      return None;
    }

    /** `burn_cheese`: send the quantity to eosio.null. */
    method BurnCheese(quantity: Asset)
      modifies this`outbox
      ensures outbox == old(outbox) + [BurnTransfer(account, quantity)]
    {
      outbox := outbox + [BurnTransfer(account, quantity)];
    }

    /** The `eosio.token::transfer` notification: a vote-reward payment is
      split into stake, cheesepowerz and swap shares, the shares are sent,
      and the payment is recorded on the pending burn and in the stats. */
    method OnWaxTransfer(from: Name, to: Name, quantity: Asset, memo: string) returns (r: Outcome)
      requires Valid() && ValidAsset(quantity)
      modifies this
      ensures Valid()
      ensures r == WaxTransferOutcome(old(Snapshot()), account, from, to, quantity)
      ensures !r.Applied? ==> Snapshot() == old(Snapshot())
      ensures r.Applied? ==>
        && quantity.sym == WAX_SYMBOL && 0 < quantity.amount && old(pending).Some? && old(config).Some?
        && WaxPaymentRecorded(old(Snapshot()), Snapshot(), account, old(config).value.alcorPoolId, quantity)
    {
      if to != account || from == account {
        return Ignored;
      }
      if from !in VOTE_REWARD_SOURCES {
        return Ignored;
      }
      if quantity.sym != WAX_SYMBOL {
        return Aborted("Only WAX tokens expected");
      }
      if quantity.amount <= 0 {
        return Aborted("Amount must be positive");
      }
      if pending.None? {
        return Aborted("No pending burn found - call burn() first");
      }
      var cfg := GetConfig();
      if cfg.Err? {
        return Aborted(cfg.msg);
      }
      r := DistributeWax(quantity, cfg.value.alcorPoolId);
    }

    /** The part of the WAX handler after its checks: stake, pay
      cheesepowerz, swap, and record the payment. */
    method DistributeWax(quantity: Asset, poolId: nat) returns (r: Outcome)
      requires Valid() && ValidAsset(quantity)
      requires quantity.sym == WAX_SYMBOL && 0 < quantity.amount && pending.Some?
      modifies this
      ensures Valid()
      ensures r == WaxDistributionOutcome(old(Snapshot()), quantity)
      ensures !r.Applied? ==> Snapshot() == old(Snapshot())
      ensures r.Applied? ==> WaxPaymentRecorded(old(Snapshot()), Snapshot(), account, poolId, quantity)
    {
      var saved := Snapshot();
      var sp := SplitWax(quantity.amount);
      var toStake := Asset(sp.stake, WAX_SYMBOL);
      var cheesepowerzWax := Asset(sp.cheesepowerz, WAX_SYMBOL);
      var toSwap := Asset(sp.swap, WAX_SYMBOL);
      StatsAfterAccumulates(stats, WaxStatsDelta(quantity, sp));

      if toStake.amount > 0 {
        outbox := outbox + [DelegateBw(account, account, Asset(0, WAX_SYMBOL), toStake, false)];
      }
      if cheesepowerzWax.amount > 0 {
        outbox := outbox + [Transfer(EOSIO_TOKEN, account, CHEESEPOWERZ_ACCOUNT, cheesepowerzWax, "cheesepowerz allocation")];
        CpowerAfterAccumulates(cpower, cheesepowerzWax);
        var err := UpdateCpowerStats(cheesepowerzWax);
        if err.Some? {
          Revert(saved);
          return Aborted(err.value);
        }
      }
      ghost var afterCpower := cpower;
      assert CpowerTotal(afterCpower) == CpowerTotal(saved.cpower) + sp.cheesepowerz;
      outbox := outbox + [Transfer(EOSIO_TOKEN, account, ALCOR_SWAP_CONTRACT, toSwap, SwapMemo(poolId, account))];
      assert outbox == saved.outbox + WaxTransferActions(account, poolId, sp);
      pending := Some(pending.value.(waxClaimed := quantity, waxSwapped := toSwap));
      var err := UpdateStats(WaxStatsDelta(quantity, sp));
      if err.Some? {
        Revert(saved);
        return Aborted(err.value);
      }
      assert WaxDistributionOutcome(saved, quantity) == Applied;
      return Applied;
    }

    /** The `cheeseburger::transfer` notification: the swap output is split
      into a liquidity share and a burned share, the burn is counted and
      logged with the pending burn's figures, and the pending burn ends. */
    method OnCheeseTransfer(from: Name, to: Name, quantity: Asset, memo: string) returns (r: Outcome)
      requires Valid() && ValidAsset(quantity)
      modifies this
      ensures Valid()
      ensures r == CheeseTransferOutcome(old(Snapshot()), account, from, to, quantity)
      ensures !r.Applied? ==> Snapshot() == old(Snapshot())
      ensures r.Applied? ==>
        && quantity.sym == CHEESE_SYMBOL && 0 < quantity.amount && old(pending).Some?
        && CheesePaymentRecorded(old(Snapshot()), Snapshot(), account, quantity)
    {
      if to != account || from == account {
        return Ignored;
      }
      if from != ALCOR_SWAP_CONTRACT {
        return Aborted("This contract only accepts CHEESE from Alcor swaps");
      }
      if quantity.sym != CHEESE_SYMBOL {
        return Aborted("Only CHEESE tokens accepted");
      }
      if quantity.amount <= 0 {
        return Aborted("Amount must be positive");
      }
      if pending.None? {
        return Aborted("No pending burn found");
      }
      r := DistributeCheese(quantity);
    }

    /** The part of the CHEESE handler after its checks: pay liquidity, burn,
      count and log the burn, and clear the pending row. */
    method DistributeCheese(quantity: Asset) returns (r: Outcome)
      requires Valid() && ValidAsset(quantity)
      requires quantity.sym == CHEESE_SYMBOL && 0 < quantity.amount && pending.Some?
      modifies this
      ensures Valid()
      ensures r == CheeseDistributionOutcome(old(Snapshot()), quantity)
      ensures !r.Applied? ==> Snapshot() == old(Snapshot())
      ensures r.Applied? ==> CheesePaymentRecorded(old(Snapshot()), Snapshot(), account, quantity)
    {
      var burnInfo := pending.value;
      var saved := Snapshot();
      var sp := SplitCheese(quantity.amount);
      var liquidity := Asset(sp.liquidity, CHEESE_SYMBOL);
      var toBurn := Asset(sp.burn, CHEESE_SYMBOL);
      StatsAfterAccumulates(stats, CheeseStatsDelta(sp));

      if liquidity.amount > 0 {
        outbox := outbox + [Transfer(CHEESE_CONTRACT, account, CHEESE_LIQ_ACCOUNT, liquidity, "CHEESE liquidity allocation")];
      }
      BurnCheese(toBurn);
      var err := UpdateStats(CheeseStatsDelta(sp));
      if err.Some? {
        Revert(saved);
        return Aborted(err.value);
      }
      outbox := outbox + [BurnLog(burnInfo.caller, burnInfo.waxClaimed, burnInfo.waxSwapped, toBurn)];
      assert outbox == saved.outbox + CheeseTransferActions(account, burnInfo, sp);
      pending := None;
      return Applied;
    }

    /** `logburn`: only the contract itself may send it; it changes nothing. */
    method LogBurn(auths: set<Name>, caller: Name, waxClaimed: Asset, waxSwapped: Asset, cheeseBurned: Asset)
      returns (r: Outcome)
      ensures r.Applied? <==> account in auths
      ensures r.Aborted? ==> r.reason == MissingAuthority(account)
      ensures !r.Ignored?
    {
      if account !in auths {
        return Aborted(MissingAuthority(account));
      }
      return Applied;
    }
  }
}
