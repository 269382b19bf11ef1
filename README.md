# cheeseburner, modelled in Dafny

This project models the `cheeseburner` EOSIO contract on the WAX chain and
two helpers from the front end that drive it.

The contract turns the account's vote rewards into burned CHEESE:

- `burn` records who asked for a burn and claims the vote reward.
- The WAX that arrives is split. 20% is staked as CPU, 5% goes to the
  cheesepowerz account, and the rest is swapped for CHEESE on Alcor.
- The CHEESE that comes back is split again. 15% goes to the liquidity
  account, and the rest is sent to `eosio.null`.
- The burn is counted, logged with the original caller, and the pending
  burn ends.

From the front end, the model covers the 24-hour claim cooldown and its
`"<h>h <m>m <s>s"` countdown text.

Files:

- `results.dfy`: `Option` and `Result`.
- `text.dfy`: decimal rendering of naturals; splitting and joining on a separator.
- `eosio.dfy`: account names, int64 arithmetic, and assets with the CDT's
  checked `+=`.
- `tables.dfy`: the header's constants and table rows, and what their
  primary keys imply.
- `split.dfy`: the WAX and CHEESE splits, both exact and as computed by a
  build that wraps the int64 products.
- `burner.dfy`: the contract as a class `CheeseBurner`. It has the four
  tables (`config`, `pendingburn`, `stats`, `cpowerstats`) as optional rows,
  and an `outbox` of the inline actions it sends.
- `cooldown.dfy`: the claim cooldown and the countdown text.

How the model treats a transaction:

- A failed `check` aborts and reverts the whole transaction. Each action
  method returns an `Outcome`: `Applied`, `Ignored` (the handler returned
  early) or `Aborted(reason)`. Every method guarantees that anything other
  than `Applied` leaves all tables and the outbox as they were.
- Inline actions are appended to the outbox in the order they are sent.
  They are never executed.
- Each handler is also described by a function over a `State` value. These
  are `WaxTransferOutcome`, `CheeseTransferOutcome`, `SetConfigOutcome` and
  `BurnOutcome`, plus the predicates `WaxPaymentRecorded` and
  `CheesePaymentRecorded`. The methods are proved against these
  descriptions, and lemmas prove what the contract promises about them.

## Model

| member | source | states |
|---|---|---|
| BurnerTables.SymbolsDistinct | contracts/cheeseburner.hpp:13-18 | WAX has precision 8 and CHEESE precision 4. The symbols differ, so adding a WAX and a CHEESE asset always fails. |
| BurnerTables.ConstantKeyAtMostOneRow | contracts/cheeseburner.hpp:50-64 | A table whose rows all have the same primary key is empty or holds exactly one row under that key. |
| BurnerTables.StatsTableAtMostOneRow | contracts/cheeseburner.hpp:55-64 | The stats table (key always 0) holds at most one row, and it sits under key 0. |
| BurnerTables.CpowerTableAtMostOneRow | contracts/cheeseburner.cpp:345-357 | The cpowerstats row is looked up only under key 0 (cpp:347). With the row's primary key taken to be 0, the table holds at most one row. |
| BurnerTables.PendingTableAtMostOneRow | contracts/cheeseburner.hpp:46-52 | The pending-burn row's key is the constant 0, so at most one burn is in flight. |
| BurnerTables.OneBalancePerSymbol | contracts/cheeseburner.hpp:83-87 | Balance rows are keyed by symbol code, so two rows with the same symbol code are the same row. |
| Eosio.WrapInt64 | contracts/cheeseburner.cpp:94-96 | The result is in int64 range and congruent to the input modulo 2^64. An int64 input is left unchanged. |
| Eosio.Add | contracts/cheeseburner.cpp:329-334 | Asset `+=` succeeds exactly when the symbols match and the sum is within ±(2^62−1). The result keeps the symbol and holds the sum. With equal symbols, it otherwise fails with "addition overflow" or "addition underflow". |
| Eosio.NameHasNoHash | contracts/cheeseburner.cpp:137-140 | A valid account name contains no `#`, so it cannot break the swap memo's fields. |
| Text.NatToDecimal | contracts/cheeseburner.cpp:137 | The rendering is a non-empty string of digits. It starts with `0` only for zero, which renders as `"0"`. |
| Text.DecimalRoundTrip | contracts/cheeseburner.cpp:137 | The rendering of a natural is canonical and parses back to the same natural. |
| Text.DecimalCanonical | contracts/cheeseburner.cpp:137 | Every canonical digit string is the rendering of its value, so rendering is onto the canonical strings. |
| Text.Split | contracts/cheeseburner.cpp:137-140 | Splitting yields at least one field, and no field contains the separator. |
| Text.SplitJoin | contracts/cheeseburner.cpp:137-140 | Joining fields that contain no separator, then splitting, gives back the same fields. |
| Text.JoinSplit | contracts/cheeseburner.cpp:137-140 | Splitting any string, then joining, gives back the same string. |
| BurnSplit.PercentOf | contracts/cheeseburner.cpp:94-95 | The share is the floor of amount·pct/100: `100·r <= amount·pct < 100·r + 100`. |
| BurnSplit.SplitWax | contracts/cheeseburner.cpp:94-96 | stake + cheesepowerz + swap equals the amount. The stake is ⌊20%⌋ and the cheesepowerz share ⌊5%⌋. Both are non-negative. The swap share is positive, at least 75% of the amount and at most the amount. |
| BurnSplit.SplitCheese | contracts/cheeseburner.cpp:206-207 | liquidity + burn equals the amount. The liquidity share is ⌊15%⌋ and non-negative. The burn share is positive and at most the amount. |
| BurnSplit.PercentOfAsWritten | contracts/cheeseburner.cpp:94-95 | `amount * pct / 100` as a build that wraps the int64 product computes it. Its property is stated by `PercentOfAgrees`: below the overflow threshold it equals `PercentOf`. |
| BurnSplit.SplitWaxAsWritten | contracts/cheeseburner.cpp:94-96 | The WAX split as a build that wraps the int64 products computes it. Its properties are stated by `SplitWaxAgrees` (equal to `SplitWax` below the threshold) and `WaxSplitOverflows` (wrong above it). |
| BurnSplit.SplitCheeseAsWritten | contracts/cheeseburner.cpp:206-207 | The CHEESE split as a build that wraps the int64 product computes it. Its properties are stated by `SplitCheeseAgrees` and `CheeseSplitOverflows`. |
| BurnSplit.WaxSplitFolded | contracts/cheeseburner.cpp:94-95 | A build that folds `* 20 / 100` into `/ 5` and `* 5 / 100` into `/ 20` computes exactly the stake and cheesepowerz shares of `SplitWax`, for every positive amount. |
| BurnSplit.PercentOfAgrees | contracts/cheeseburner.cpp:94-95 | While amount·pct fits in int64, the int64 evaluation equals the exact share. |
| BurnSplit.SplitWaxAgrees | contracts/cheeseburner.cpp:94-96 | For amounts with amount·20 within int64, the code's WAX split is the exact one. |
| BurnSplit.SplitCheeseAgrees | contracts/cheeseburner.cpp:206-207 | For amounts with amount·15 within int64, the code's CHEESE split is the exact one. |
| BurnSplit.WaxSplitOverflows | contracts/cheeseburner.cpp:94-96 | For the valid amount 461168601842738791, `amount * 20` overflows int64 (undefined behaviour). A build that wraps the product stakes a negative share and swaps more than it received. The exact split stakes 92233720368547758. |
| BurnSplit.CheeseSplitOverflows | contracts/cheeseburner.cpp:206-207 | For the valid amount 614891469123651721, `amount * 15` overflows int64 (undefined behaviour). In a build that wraps the product, the liquidity share is negative and the burn share exceeds the amount. |
| Burner.StatsAfter | contracts/cheeseburner.cpp:314-336 | The stats row after `update_stats`. Its properties are stated by `StatsAfterAccumulates` and `StatsCreationIsAdditionToEmpty`. |
| Burner.StatsAfterAccumulates | contracts/cheeseburner.cpp:314-336 | `update_stats` moves each total by exactly its argument and `total_burns` by one iff `count_burn`. The first call creates the row from the arguments. The only failure is a total leaving the asset range of an existing row; WAX and CHEESE totals are never mixed. |
| Burner.StatsCreationIsAdditionToEmpty | contracts/cheeseburner.cpp:318-326 | Creating the row from the arguments equals adding them to a row of zero totals. |
| Burner.CpowerAfter | contracts/cheeseburner.cpp:345-357 | The cpowerstats row after `update_cpowerstats`. Its property is stated by `CpowerAfterAccumulates`. |
| Burner.CpowerAfterAccumulates | contracts/cheeseburner.cpp:345-357 | The cheesepowerz total grows by exactly the WAX sent and stays in WAX. It fails only on range overflow of an existing row. |
| Burner.SwapMemo | contracts/cheeseburner.cpp:137-140 | The Alcor swap memo. Its fields are stated by `SwapMemoFields`. |
| Burner.SwapMemoFields | contracts/cheeseburner.cpp:137-140 | The memo's `#`-separated fields are exactly `swapexactin`, the decimal pool id, the contract account, `0.0000 CHEESE@cheeseburger` and `0`. The pool-id field parses back to the pool id. |
| Burner.SwapMemoIsJoin | contracts/cheeseburner.cpp:137-140 | The memo is its five fields joined with `#`. |
| Burner.SpentConcat | contracts/cheeseburner.cpp:103-152 | The amount of a symbol that a sequence of actions spends is additive over concatenation. |
| Burner.WaxTransferActions | contracts/cheeseburner.cpp:103-152 | The actions a WAX payment sends, in order. Their amounts and shape are stated by `WaxTransferActionsShape`. |
| Burner.CheeseTransferActions | contracts/cheeseburner.cpp:212-239 | The actions a CHEESE payment sends, in order. Their amounts and shape are stated by `CheeseTransferActionsShape`. |
| Burner.WaxTransferActionsShape | contracts/cheeseburner.cpp:103-152 | For a positive WAX payment the emitted actions spend exactly the payment in WAX and no CHEESE. The last action is the swap transfer to swap.alcor, with a positive amount and the Alcor memo. A `delegatebw` is emitted iff the stake share is positive. A cheesepowerz transfer is emitted iff its share is positive. |
| Burner.CheeseTransferActionsShape | contracts/cheeseburner.cpp:212-239 | For a positive CHEESE payment the emitted actions spend exactly the payment in CHEESE and no WAX. A positive burn transfer to eosio.null is always sent. The liquidity transfer is sent iff its share is positive. The final `logburn` carries the pending caller, its WAX figures and the burned amount. |
| Burner.SetConfigOutcome | contracts/cheeseburner.cpp:15-27 | Which check of `setconfig` fails first. Its meaning is stated by `SetConfigAppliedIff`. |
| Burner.BurnOutcome | contracts/cheeseburner.cpp:43-47 | Which check of `burn` fails first. Its meaning is stated by `BurnAppliedIff`. |
| Burner.WaxTransferOutcome | contracts/cheeseburner.cpp:73-90 | How the WAX handler ends. Its meaning is stated by `WaxTransferOutcomeCases`. |
| Burner.CheeseTransferOutcome | contracts/cheeseburner.cpp:186-201 | How the CHEESE handler ends. Its meaning is stated by `CheeseTransferOutcomeCases`. |
| Burner.SetConfigAppliedIff | contracts/cheeseburner.cpp:15-27 | `setconfig` applies exactly when it has the stored admin's authority (the contract's own before any config exists), the admin account exists, the pool id is non-zero and the minimum is a non-negative WAX amount. It never returns early. |
| Burner.BurnAppliedIff | contracts/cheeseburner.cpp:43-47 | `burn` applies exactly when it carries the caller's authority and a config exists with burns enabled. It never returns early. Without the caller's authority it aborts with the missing-authority error. |
| Burner.WaxTransferOutcomeCases | contracts/cheeseburner.cpp:73-90 | The WAX handler is a no-op exactly for outgoing transfers, self-transfers and senders other than eosio.voters/vpay/bpay. It applies only to a positive WAX amount with a burn pending and a config stored. Once those hold, its only abort is a running total overflowing. |
| Burner.CheeseTransferOutcomeCases | contracts/cheeseburner.cpp:186-201 | The CHEESE handler is a no-op exactly for outgoing and self transfers, and aborts on any other sender than swap.alcor. It applies only to a positive CHEESE amount with a burn pending. Once those hold, its only abort is a running total overflowing. |
| Burner.BurnCycleLogsCaller | contracts/cheeseburner.cpp:51-56 | After `burn`, a recorded WAX payment and a recorded CHEESE payment, exactly one burn has been counted and nothing is pending. The config is unchanged. The last action logs the original caller with the WAX claimed, the WAX swapped and the CHEESE burned. |
| Burner.CheeseBurner.constructor | contracts/cheeseburner.hpp:29-31 | A freshly deployed contract has every table empty and has sent nothing. |
| Burner.CheeseBurner.Revert | contracts/cheeseburner.cpp:24-27 | A failed check restores every table and the outbox to the saved state. |
| Burner.CheeseBurner.GetConfig | contracts/cheeseburner.cpp:339-343 | Returns the stored config, which satisfies what `setconfig` checked. Without one it fails with "Contract not configured. Run setconfig first.". |
| Burner.CheeseBurner.SetConfig | contracts/cheeseburner.cpp:6-37 | The result is `SetConfigOutcome`. On success only the config changes, and it equals the arguments. Otherwise nothing changes. The table invariant is kept. |
| Burner.CheeseBurner.Burn | contracts/cheeseburner.cpp:41-67 | Requires the caller's authority and an enabled config, in that order. On success the pending row is exactly the caller, the time and zero WAX amounts, and one `claimgbmvote` is sent. Otherwise nothing changes. |
| Burner.CheeseBurner.UpdateStats | contracts/cheeseburner.cpp:314-337 | The imperative field-by-field update yields exactly `StatsAfter`. On a failed addition it reports the CDT's message. |
| Burner.CheeseBurner.UpdateCpowerStats | contracts/cheeseburner.cpp:345-357 | The emplace or `+=` yields exactly `CpowerAfter`. On a failed addition it reports the message. |
| Burner.CheeseBurner.BurnCheese | contracts/cheeseburner.cpp:300-312 | Appends one CHEESE transfer of the quantity to eosio.null with the burn memo, and changes nothing else. |
| Burner.CheeseBurner.OnWaxTransfer | contracts/cheeseburner.cpp:71-165 | The result is `WaxTransferOutcome`. Anything but `Applied` changes nothing. On `Applied`, `WaxPaymentRecorded` holds: the pending row keeps its caller and records the payment and the swap share; the stats grow by the payment and the stake without counting a burn; the cheesepowerz total grows by its share; the split's actions are sent in order. The invariant is kept. |
| Burner.CheeseBurner.DistributeWax | contracts/cheeseburner.cpp:93-161 | After the checks, sends the split's actions, updates `cpowerstats`, the pending row and the stats, and ends in `WaxPaymentRecorded`. It aborts with no change when a total would overflow. |
| Burner.CheeseBurner.OnCheeseTransfer | contracts/cheeseburner.cpp:184-243 | The result is `CheeseTransferOutcome`. Anything but `Applied` changes nothing. On `Applied`, `CheesePaymentRecorded` holds: the stats count one more burn and grow by the burned and liquidity shares; the liquidity transfer, the burn and the `logburn` of the pending figures are sent; the pending row is removed. |
| Burner.CheeseBurner.DistributeCheese | contracts/cheeseburner.cpp:204-242 | After the checks, sends liquidity and burn, counts the burn, logs it and clears the pending row. It aborts with no change when a total would overflow. |
| Burner.CheeseBurner.LogBurn | contracts/cheeseburner.cpp:167-180 | Applies exactly when the contract's own authority is present, and otherwise aborts with the missing-authority error. It changes no table. |
| ClaimCooldown.CooldownIsOneDay | src/lib/waxApi.ts:6 | The cooldown is 86,400,000 ms, i.e. 24 hours. |
| ClaimCooldown.TimeUntilNextClaim | src/lib/waxApi.ts:175-180 | The remaining time is never negative. It is zero iff a full cooldown has passed since the last claim, and otherwise equals last claim + cooldown − now. |
| ClaimCooldown.CanClaim | src/lib/waxApi.ts:183-185 | A claim is possible iff now ≥ last claim + cooldown. |
| ClaimCooldown.RemainingNonIncreasing | src/lib/waxApi.ts:175-180 | As `now` grows the remaining time never grows, and it shrinks by at most the time elapsed. |
| ClaimCooldown.CooldownBoundary | src/lib/waxApi.ts:175-185 | One second short of a day after a claim, 1000 ms remain and no claim is possible. Exactly a day after, a claim is possible. |
| ClaimCooldown.CountdownFields | src/lib/waxApi.ts:191-193 | For ms > 0, the minutes and seconds are below 60, and h·3,600,000 + m·60,000 + s·1000 ≤ ms < that + 1000. |
| ClaimCooldown.CountdownFieldsUnique | src/lib/waxApi.ts:191-193 | Conversely, hours, minutes and seconds (both below 60) are the fields of every positive duration from their total up to the next second. |
| ClaimCooldown.FormatCountdown | src/lib/waxApi.ts:188-196 | The text is "Ready!" iff ms ≤ 0. |
| ClaimCooldown.FormatCountdownIsJoin | src/lib/waxApi.ts:195 | A running countdown is the three fields `<h>h`, `<m>m`, `<s>s` joined by single spaces. |
| ClaimCooldown.CountdownRoundTrip | src/lib/waxApi.ts:188-196 | Parsing a running countdown's text gives back exactly its fields; "Ready!" parses as no countdown. |
| ClaimCooldown.ShortCountdown | src/lib/waxApi.ts:189-195 | Under one second left shows "0h 0m 0s". |

## Left out

- `get_wax_cheese_rate` (contracts/cheeseburner.cpp:247-278) is left out. It uses floating-point division and `pow`, and no action calls it.
- `get_wax_balance` and `get_cheese_balance` (contracts/cheeseburner.cpp:280-298) are left out. They only read other contracts' tables, and nothing calls them.
- Inline actions are recorded in the outbox but never executed. This covers `claimgbmvote`, `delegatebw`, the token transfers, the Alcor swap and `logburn` as sent.
- `require_recipient` (contracts/cheeseburner.cpp:177) is a notification only.
- How the CHEESE actually arrives, and whether the swap happens at all, is not modelled.
- `is_account` is a parameter: the set `accounts` of existing accounts.
- `require_auth` is checked against a parameter: the set `auths` of authorities the transaction carries.
- `current_time_point()` is the parameter `now`, in whole seconds.
- Token-contract dispatch is not modelled. The model does not check which token contract notified the handler (`eosio.token` for WAX, `cheeseburger` for CHEESE), or that the notifying contract is a genuine token contract.
- `OnWaxTransfer` and `OnCheeseTransfer` require a valid asset (|amount| ≤ 2^62−1). The token contract validated the transfer before notifying, so a handler never sees anything else.
- Symbol-name validity and name encoding are not modelled. A name is a string of at most 13 characters from `.1-5a-z`, and a symbol is a code plus a precision.
- `total_burns` is a `uint64` in the source and a `nat` here. Its wrap-around after 2^64 burns is not modelled.
- `min_wax_to_burn` is validated and stored but never read by any action. The model does the same.
- The claim cooldown takes `lastClaim` and `now` as integer milliseconds. Date-string parsing (src/lib/waxApi.ts:176) and `Date.now()` are left out. JavaScript numbers are taken to be exact integers.
- The HTTP fetchers, the float formatters (`calculateCheesePerWax`, `formatWaxAmount`, `formatCheeseAmount`), the React hooks, the wallet context and the components are left out: they are I/O and presentation.
- The parsing helpers the hooks import are not part of this model: they are not defined in `src/lib/waxApi.ts`.
- The header and the implementation disagree; the model follows `cheeseburner.cpp`:
  - The pending row carries `wax_claimed` and `wax_swapped` (cpp:54-55, 156-157), which the header's `pending_burn_row` lacks.
  - The stats row carries `total_cheese_liquidity` (cpp:325), which the header's `stats_row` lacks.
  - `update_stats` takes six arguments (cpp:314), not the header's four.
  - The split is 20/5/75 for WAX and 15/85 for CHEESE, not the older split the header comments describe (hpp:99-101).
- The implementation uses names the header does not declare: `CHEESE_LIQ_ACCOUNT`, `cpowerstats_table`, `pendingburnr` and `on_wax_transfer`. `CHEESE_LIQ_ACCOUNT` is taken to be `xcheeseliqst`, the account the comment at cpp:205 names.
- The `config` and `pendingburn` singletons are `Option`s. A singleton stores one value by construction.
- OnWaxTransfer, DistributeWax: use the exact WAX split `SplitWax`, not the int64 evaluation of cpp:94-96. `SplitWaxAgrees` proves the two are the same while amount·20 ≤ INT64_MAX (amounts below 461168601842738791 units). For larger amounts see "## Findings".
- OnCheeseTransfer, DistributeCheese: use the exact CHEESE split `SplitCheese`, not the int64 evaluation of cpp:206-207. `SplitCheeseAgrees` proves the two are the same while amount·15 ≤ INT64_MAX (amounts below 614891469123651721 units). For larger amounts see "## Findings".
- BurnCycleLogsCaller: composes `burn` and the two notifications as separate steps. On the chain they run in one transaction, so an abort in either handler also undoes the `burn` that started the cycle. That atomicity is not captured, since the inline actions that link the steps are not executed.
- CpowerTableAtMostOneRow: the cpowerstats row type is not declared in the header. It is taken to hold only `total_wax_cheesepowerz`, with primary key 0, the key cpp:347 looks up. That is why `cpower` is an optional row and `CpowerAfter` adds to the row that `find(0)` returns. With any other primary key, the second positive cheesepowerz share would fail the emplace instead of adding to the total, and the model does not capture that.
- `DistributeWax` and `DistributeCheese` are factorings of the two handlers' bodies after their checks, not separate functions in the source.

## Findings

| source | as written | input that shows it | evidently intended | confidence | as-written member | corrected member |
|---|---|---|---|---|---|---|
| contracts/cheeseburner.cpp:94-96 | `quantity.amount * 20 / 100` is evaluated in int64, and the product overflows for valid amounts of at least 461168601842738791 units (about 4.6 billion WAX). That is undefined behaviour in C++. A build that folds the constants computes `amount / 5` and `amount / 20` instead, which equal `SplitWax` (`WaxSplitFolded`) | 461168601842738791 units of WAX, in a build that wraps the product: the stake share comes out as −92233720368547757, no CPU is staked, and the swap transfer exceeds the amount received | stake = ⌊20% of amount⌋, with the three shares summing to the amount | low (needs a vote-reward payment of billions of WAX and a build that wraps the product); not executed | BurnSplit.SplitWaxAsWritten, BurnSplit.WaxSplitOverflows | BurnSplit.SplitWax, BurnSplit.SplitWaxAgrees |
| contracts/cheeseburner.cpp:206-207 | `quantity.amount * 15 / 100` is evaluated in int64, and the product overflows for valid amounts of at least 614891469123651721 units. That is undefined behaviour in C++ | 614891469123651721 units of CHEESE, in a build that wraps the product: the liquidity share is negative and the burn transfer exceeds the amount received | liquidity = ⌊15% of amount⌋, burn = the rest | low (needs an enormous swap output and a build that wraps the product); not executed | BurnSplit.SplitCheeseAsWritten, BurnSplit.CheeseSplitOverflows | BurnSplit.SplitCheese, BurnSplit.SplitCheeseAgrees |
