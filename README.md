# Cross-venue arbitrage bot: a Dafny model of its decision and bookkeeping core

The bot watches pairs of pools that trade the same two tokens on Uniswap v3
and Camelot (Arbitrum). At each new block it does four things:

- reads both pools' square-root prices and four token balances in one batched
  read;
- estimates the USD profit of four directional swap variants;
- keeps the candidates that pass a liquidity gate, an allowed-token gate and a
  0.1 USD profit threshold;
- sends one `executeArbitrage` transaction for the most profitable candidate
  whose pool pair is not banned.

A per-pool-pair circuit breaker counts reverted transactions. Two consecutive
reverts ban the pair for 150 blocks. A nonce cursor keeps the nonces of
successive broadcasts strictly increasing.

The model has one file per source module. Shared vocabulary lives in
`types.dfy`.

| file | models | form |
|---|---|---|
| `types.dfy` | pool rows, pool keys, readings, the four variants and their labels, lower-casing, powers of ten, truncation | datatypes and functions |
| `pool_filter.dfy` | `update_revert_counters`, `is_pool_banned`, and the receipt update of the scanner | specification functions plus class `PoolHealth`, whose methods update the three maps in place with loops |
| `profit_calculator.dfy` | `calculate_profit`, `pre_flight_check` | pure functions over `real` |
| `arb_executor.dfy` | `send_arbitrage_tx` nonce rule and commit | functions plus class `Executor` holding `last_used_nonce` |
| `price_fetcher.dfy` | call layout and stride-6 regrouping of `get_pool_data_multicall`; `get_gas_price` | methods with loops, proved against recursive functions; class `GasCache` |
| `arbitrage.dfy` | `prepare_tx_data`, `find_arbitrage_opportunities` | functions for the specification of a cycle; class `Bot` whose methods run the scan, sort, ban-skip, send and receipt update |

The outside world enters as parameters:

- the decoded values of the aggregated read (`answer: Call -> int`);
- the chain's transaction count;
- signing plus broadcast (`submit`);
- the receipt wait (`receipt`), whose `None` is the timeout;
- the clock (`now`) and the base fee.

The scan is written once against a record of three gates: liquidity, admitted
token, and profit. Every selection property holds for any gates.
`ScannerGates` are the bot's actual gates (`pre_flight_check`, the
allowed-token test, `calculate_profit`), and
`Arbitrage.Bot.FindArbitrageOpportunities` uses them.

Where the code and the specification of the system disagree, the model
follows the code:

- A receipt timeout raises out of `find_arbitrage_opportunities`
  (main.py:86). The circuit breaker is then untouched, but `iteration_count`
  is not incremented either. The model reports this as `Raised(ReceiptTimeout)`.
- A zero reference price for the input token divides by zero in
  `prepare_tx_data` (main.py:43) and raises. The model reports this as
  `Raised(ZeroTokenPrice)`.
- The profit function returns 0 on a non-positive price only for Token0,
  through the output-price guard (profit_calculator.py:67-69). A non-positive
  input price leaves the gas cost as a negative profit (line 75). The
  specification describes a short-circuit to zero for any non-positive
  reference price.
- A decode failure raises out of the whole batched read
  (price_fetcher.py:103-108). It does not drop just that pair. Decoding is
  abstracted here.

Two quirks of the code are reproduced on purpose:

- The allowed-token test checks the Token0 address for all four variants,
  because every label contains "Token0" (main.py:60).
- The output-price guard always reads Token0's price, for the same reason
  (profit_calculator.py:67).

## Model

| member | source | states |
|---|---|---|
| Types.FieldAt | price_fetcher.py:102-108 | the field stored from slot j of a group of six is the one whose slot is j (inverse of the fixed field order) |
| Types.ParseLabel | profit_calculator.py:31-64 | a string is recognised as a variant only if it is that variant's label, and rejected only if no variant has it as label |
| Types.ParseLabelRoundTrip | profit_calculator.py:31-64 | each of the four labels is recognised as exactly the variant it names |
| Types.LabelContainsToken0 | main.py:55-60 | every one of the four labels contains the substring "Token0" |
| Types.AllVariantsComplete | main.py:55-58 | the scanned variant list contains every variant |
| Types.Lower | main.py:61 | lower-casing keeps the length and maps each character through ASCII lower-casing |
| Types.Pow10 | profit_calculator.py:17 | a power of ten, also for negative exponents, is strictly positive |
| Types.Trunc | main.py:43 | `int()` on a real truncates toward zero: within one unit below a non-negative value, within one unit above a negative one |
| PoolFilter.SweepClearsStale | pool_filter.py:20-25 | after the reset pass every key with a last revert block at least RESET_BLOCKS old and a positive counter has counter 0 (the boundary is `>=`) |
| PoolFilter.UpdateLeavesCountersBelow | pool_filter.py:28-31 | after update_revert_counters every counter is below MAX_REVERTS |
| PoolFilter.Sweep | pool_filter.py:20-25 | the reset pass zeroes exactly the counters of stale keys (positive counter, last revert at least the reset window old) and touches nothing else |
| PoolFilter.BanPass | pool_filter.py:28-31 | the ban pass zeroes exactly the counters at or over the limit, bans exactly those keys until latest + BAN_BLOCKS, keeps every other ban entry and leaves revert_last_block alone |
| PoolFilter.UpdateCounters | pool_filter.py:18-31 | update_revert_counters never raises a counter, keeps the counter keys and never touches revert_last_block |
| PoolFilter.BanPassBans | pool_filter.py:28-31 | a key at the limit when the ban pass runs is banned until latest + BAN_BLOCKS with counter 0, and with a positive ban length it is banned at the banning block |
| PoolFilter.StaleKeyIsNotBanned | pool_filter.py:20-31 | the reset pass runs first: a stale key already over the limit ends with counter 0 and its ban entry unchanged (present iff before, same value) |
| PoolFilter.UpdateFrame | pool_filter.py:18-31 | revert_last_block is never modified, the counter keys stay the same, and a key neither stale nor over the limit keeps its counter and its ban entry |
| PoolFilter.IsPoolBanned | pool_filter.py:34-37 | a pair is banned exactly while it has a ban block ahead of the current block; the non-zero test is implied because blocks are never negative |
| PoolFilter.BanWindow | pool_filter.py:34-37 | with a non-zero ban block the pool is banned exactly while latest < ban block, so the ban lapses at that block with no unban |
| PoolFilter.NoEntryNoBan | pool_filter.py:34-37 | an absent or zero ban entry never bans |
| PoolFilter.OnReceipt | main.py:87-94 | the receipt update changes only the receipted pair: its counter ends below 2, a success zeroes it and changes nothing else, a revert records the block, and the only ban it can add is that pair's, for 150 blocks after a revert |
| PoolFilter.RevertRule | main.py:87-92 | status 0 records the block, and either bans for 150 blocks with counter reset (count reaching 2) or stores the incremented count with bans unchanged |
| PoolFilter.SuccessForgives | main.py:93-94 | any non-zero status zeroes the pair's counter and changes nothing else |
| PoolFilter.OnReceiptKeepsInvariant | main.py:87-94 | the receipt update keeps every counter below 2, and a ban it sets lies strictly after the block that triggered it |
| PoolFilter.TwoRevertsBan | main.py:87-92 | from no warnings two consecutive reverts ban the pair exactly for blocks before the second revert's block + 150 |
| PoolFilter.SuccessBetweenRevertsNoBan | main.py:87-94 | a success between two reverts leaves the count at 1 and adds no ban |
| PoolFilter.RevertsAt100And101 | main.py:87-92 | reverts at blocks 100 and 101 ban the pair through block 250 and not at 251 |
| PoolFilter.PoolHealth.constructor | main.py:26 | the three maps start empty |
| PoolFilter.PoolHealth.UpdateRevertCounters | pool_filter.py:18-31 | the maps become the sweep followed by the ban pass of the old maps |
| PoolFilter.PoolHealth.CollectStale | pool_filter.py:20-23 | the collected keys are exactly the stale keys of revert_last_block |
| PoolFilter.PoolHealth.ResetCounters | pool_filter.py:24-25 | the collected keys' counters become 0; all else is unchanged |
| PoolFilter.PoolHealth.BanOverLimit | pool_filter.py:28-31 | every key at the limit is banned until latest + BAN_BLOCKS and zeroed; all other entries are unchanged |
| PoolFilter.PoolHealth.RecordReceipt | main.py:87-94 | the maps become the receipt update of the old maps |
| ProfitCalculator.NormalizedPrice | profit_calculator.py:17-18 | raw^2 / 2^192 * 10^(d0-d1) is never negative and is positive exactly when the raw price is non-zero |
| ProfitCalculator.PreFlightCheck | profit_calculator.py:81-113 | passes iff the pool has a reading holding all four balances and each balance / 10^decimals * price is at least 1500 USD |
| ProfitCalculator.ThinPoolRejected | profit_calculator.py:100-110 | one balance worth less than 1500 USD fails the pre-flight check |
| ProfitCalculator.CalculateProfit | profit_calculator.py:6-77 | a non-zero profit needs a reading with both raw prices, a recognised variant label and a positive Token0 price |
| ProfitCalculator.ProfitFromPrices | profit_calculator.py:20-76 | with both normalised prices positive, a non-zero profit needs them within a factor 3 of each other, a recognised label and a positive Token0 price |
| ProfitCalculator.NoPriceNoProfit | profit_calculator.py:7-12 | a missing pool entry or a zero raw price on either venue gives profit 0 |
| ProfitCalculator.RatioOfNormalized | profit_calculator.py:17-21 | the ratio of normalised prices is the ratio of squared raw prices; the decimals cancel |
| ProfitCalculator.OutOfBandNoProfit | profit_calculator.py:20-23 | a ratio below 1/3 or above 3 gives profit 0 for any variant string |
| ProfitCalculator.UnknownLabelNoProfit | profit_calculator.py:63-64 | a string that is none of the four labels gives profit 0 |
| ProfitCalculator.LegsOfVariant | profit_calculator.py:25-61 | Uniswap-first variants charge the Uniswap fee in and the Camelot fee out, Camelot-first the reverse; amount and USD price are the input token's |
| ProfitCalculator.Token0PriceGuardsAllVariants | profit_calculator.py:67-69 | a non-positive Token0 price gives profit 0 for all four variants, the Token1-input ones included |
| ProfitCalculator.InBandEvaluates | profit_calculator.py:20-76 | inside [1/3, 3], ends included, with a positive Token0 price, each label is evaluated with its variant's legs |
| ProfitCalculator.ProfitClosedForm | profit_calculator.py:66-76 | in band, the profit is notional * (round-trip rate * both fee factors - 1) - 450000 * gas price / 1e18 * ETH price, or only minus the gas cost when the input price is not positive |
| ProfitCalculator.LegsClosedForm | profit_calculator.py:66-76 | the same closed form for the net profit of a variant's legs |
| ProfitCalculator.NetProfitClosedForm | profit_calculator.py:66-76 | converting the notional to tokens and back through the same price cancels, leaving notional * (rate * fees - 1) - gas |
| ProfitCalculator.UniswapPremiumIsProfitable | profit_calculator.py:66-77 | Uniswap at 1.02, Camelot at 1.00, 0.05% fees, no gas: buying on Uniswap with Token0 clears the 0.1 USD threshold |
| ArbExecutor.NextNonce | arb_executor.py:47-48 | the nonce is the chain count or one past the last used, at least the chain count, and above the last used nonce when there is one |
| ArbExecutor.SendStep | arb_executor.py:44-73 | a failed read, signing or broadcast keeps the last used nonce; a returned hash moves it to a nonce above the old one and at least the chain count |
| ArbExecutor.SendCommitsOnlyOnSuccess | arb_executor.py:44-73 | the last used nonce changes only when a hash comes back, to the assigned nonce; the transaction carries the seven arguments, gas 550000 and 0.2 gwei |
| ArbExecutor.NoncesStrictlyIncrease | arb_executor.py:47-66 | over any series of successful sends the nonces strictly increase, each at least the chain count and above the nonce used before, however the chain count lags |
| ArbExecutor.Executor.constructor | arb_executor.py:12-15 | the sender is the configured account and no nonce has been used |
| ArbExecutor.Executor.SendArbitrageTx | arb_executor.py:44-73 | the returned hash and new last used nonce are those of the send step from the old nonce |
| PriceFetcher.CallListLength | price_fetcher.py:87-94 | the call list has exactly six entries per row |
| PriceFetcher.CallListAt | price_fetcher.py:80-95 | call 6k + j asks for field j of row k: slot0 at the Uniswap pool, globalState at the Camelot pool, then the four balanceOf calls |
| PriceFetcher.BuildCalls | price_fetcher.py:80-95 | the loop yields 6 calls per row in the fixed order and one pool-id entry per row, in row order |
| PriceFetcher.ReadingAt | price_fetcher.py:102-109 | field j of a reading is return value i + j |
| PriceFetcher.RegroupedKeys | price_fetcher.py:99-109 | the output map is keyed by exactly the rows' Uniswap pools |
| PriceFetcher.RegroupedValue | price_fetcher.py:99-109 | a Uniswap pool maps to the group of the last row naming it, so a later row overwrites an earlier one |
| PriceFetcher.Regroup | price_fetcher.py:99-110 | the stride-6 loop keys the readings by exactly the rows' Uniswap pools, each from the group of the last row naming it |
| PriceFetcher.GetPoolData | price_fetcher.py:69-110 | each pool's field f holds the answer to the call asking for f, from the last row with that Uniswap pool; no other pools appear |
| PriceFetcher.GasStep | price_fetcher.py:55-59 | after any call the cached price is present |
| PriceFetcher.GasRefreshRule | price_fetcher.py:55-59 | a refresh happens iff the cache is empty or strictly more than 600 old; otherwise the cache is returned unchanged |
| PriceFetcher.GasCacheHoldsForInterval | price_fetcher.py:52-59 | after a refresh at t every call up to t + 600 returns the same price without changing the cache |
| PriceFetcher.GasCache.constructor | price_fetcher.py:35-37 | the cache starts empty, stamped with the load time |
| PriceFetcher.GasCache.GetGasPrice | price_fetcher.py:52-59 | the cache becomes the cache step of the old cache and the returned price is the cached one |
| Arbitrage.BaseUnits | main.py:43 | a non-negative USD-derived quantity becomes base units truncated toward zero, within one unit below the exact value |
| Arbitrage.PrepareTxData | main.py:32-44 | no parameters exactly when the input token's reference price is zero (the division raises) |
| Arbitrage.RoutersDiffer | main.py:17-18 | the two router addresses differ |
| Arbitrage.PreparedRoute | main.py:33-40 | the routers are the two distinct routers, the first Uniswap's iff the label names Uniswap first; tokens in and out are the row's two tokens in label order; the Uniswap fee sits on the Uniswap leg and the other leg carries 0 |
| Arbitrage.PreparedAmount | main.py:41-43 | the input amount is 100 USD / price * 10^decimals truncated toward zero |
| Arbitrage.TxFollowsEstimatedRoute | main.py:32-44 | the transaction follows the route the profit estimate priced: same venue order of fees, same input price, and the estimate's input quantity in base units |
| Arbitrage.CheckedToken | main.py:60 | the token the allowed-list test looks at is always Token0's address, whichever token the variant sells |
| Arbitrage.WethIsLowerCase | main.py:20 | the allowed WETH address is already lower case |
| Arbitrage.IsAllowedToken | main.py:61 | a token is allowed iff its lower-cased address is WETH's |
| Arbitrage.VariantCandidatesMembers | main.py:55-64 | a row's variant list holds an opportunity iff some scanned variant passes the token and profit gates and yields it |
| Arbitrage.VariantCandidates | main.py:55-64 | a row's variant scan yields at most one entry per variant, each above the 0.1 threshold, stamped with the scan's block and the row's pool pair |
| Arbitrage.RowCandidates | main.py:52-64 | a row yields at most four entries, each above the threshold, stamped with the block and the row's pool pair |
| Arbitrage.Candidates | main.py:52-64 | a scan records at most four entries per row, each above the 0.1 threshold and stamped with the scan's block |
| Arbitrage.CandidateGates | main.py:52-64 | an opportunity is recorded iff some row and variant pass liquidity, token and profit gates, and it carries that row's symbols, pools and profit |
| Arbitrage.CandidateHasGates | main.py:52-64 | every recorded opportunity comes from a row and variant passing all three gates |
| Arbitrage.QualifiedIsCandidate | main.py:52-64 | every row and variant passing all three gates is recorded |
| Arbitrage.ScannerQualifies | main.py:52-64 | with the bot's gates a row and variant qualify iff the pre-flight check passes, Token0 is WETH in any case, and the profit exceeds 0.1 |
| Arbitrage.SortByProfit | main.py:71 | the sorted list is a permutation of the candidates in descending profit |
| Arbitrage.FirstUnbanned | main.py:74-81 | the position of the first entry whose pair is not banned, every earlier entry banned; none only when all are banned |
| Arbitrage.FirstRowIndex | main.py:75 | the first row with the entry's pool pair, no earlier row matching |
| Arbitrage.SortedEntryHasRow | main.py:75 | the row lookup for a sorted entry always finds a row |
| Arbitrage.Selection | main.py:71-81 | a selection is a candidate of the scan whose pair is not banned, together with a row of the pool list having that pair |
| Arbitrage.Attempt | main.py:83-95 | the attempt reports its entry; preparation raises exactly when the input token's price is zero; an exception leaves the maps unchanged |
| Arbitrage.ScanCycle | main.py:66-95 | only an unbanned candidate of the scan is attempted, and a cycle that raises attempted one and left the maps unchanged |
| Arbitrage.SelectionIsFirstUnbanned | main.py:74-83 | the selection is the first unbanned sorted entry, paired with a row from the pool list having its pool pair |
| Arbitrage.MoreProfitableEntriesBanned | main.py:71-81 | in a descending list whose first i entries are banned, every entry more profitable than entry i is banned |
| Arbitrage.SelectionIsBest | main.py:71-83 | the selected entry is a recorded candidate whose pair is not banned, its row has that pair, and every more profitable candidate is banned |
| Arbitrage.AllBannedNoSelection | main.py:66-81 | with no candidates, or all of them banned, nothing is selected |
| Arbitrage.AttemptEffects | main.py:83-95 | an attempt reports its entry; the maps change only after a hash came back, which committed a nonce above the previous one, and then by the receipt update for that pair |
| Arbitrage.CycleEffects | main.py:66-95 | at most one entry, the selected one, is attempted; without a selection nothing changes; the maps change only by the receipt update after a broadcast |
| Arbitrage.Bot.constructor | main.py:25-26 | the maps and the iteration count start empty and 0 (main.py:25-26), and no nonce is used (arb_executor.py:15) |
| Arbitrage.Bot.CollectOpportunities | main.py:52-64 | the scan loop yields the candidate list in row order, then variant order |
| Arbitrage.Bot.ScanVariants | main.py:55-64 | the variant loop appends exactly the row's variants passing the token and profit gates, in order |
| Arbitrage.Bot.SelectBest | main.py:71-81 | the ban-skipping walk over the sorted list returns the first unbanned entry with its row, or nothing |
| Arbitrage.Bot.AttemptSelection | main.py:83-95 | the maps, the nonce and the outcome become those of the attempt for the selection |
| Arbitrage.Bot.FindArbitrageOpportunities | main.py:48-97 | the maps, the nonce, the outcome and the attempted entry are those of the cycle function; the iteration count grows by one exactly when no exception escapes |

## Left out

- Network and connection code is not modelled: `get_web3_ws` and the block subscription and reconnect loop (main.py:101-129) are I/O and retry logic.
- File I/O is not modelled: `load_pools`, `log_latency`, and the CSV append of the top candidate (main.py:72).
- ABI encoding and decoding and the aggregated `multicall` call are not modelled. The read is given as the value each call returns.
- `Web3.to_checksum_address` is treated as the identity: pool and token addresses are taken as already checksummed.
- Signing, broadcasting and `get_transaction_count` are two parameters. The chain's transaction count is a value that is `None` when reading it fails. Signing plus broadcast is the function `submit`, which returns `None` when either step fails. Private keys and environment configuration are left out.
- Floating point is modelled as exact reals. Rounding, overflow and underflow are not captured. `int(...)` at main.py:43 is modelled as explicit truncation.
- In exact reals a non-zero raw price always gives a positive normalised price. So the `> 0 and > 0` guard before the ratio test (profit_calculator.py:20) always holds after the zero check.
- The `try`/`except` of `pre_flight_check` (profit_calculator.py:94-113) has no counterpart. Nothing in its body can raise once values are reals.
- The input-token lookup at main.py:76-77 is computed but never used. It is left out.
- `update_revert_counters` is modelled and verified, but `find_arbitrage_opportunities` never calls it, so the cycle does not either.
- Arbitrage.SortByProfit: ties in profit are left in no particular order; the stability of pandas' sort is not modelled.
- Types.Lower: only ASCII letters are lower-cased, which is all hex addresses contain.
- PriceFetcher.GetPoolData: the aggregated call is taken to return exactly one value per call. A list short by a multiple of six would raise nothing: the stride-6 loop (price_fetcher.py:100-101) stops early and the later rows' pools are absent. Any other length mismatch raises, as does a decode failure. None of these cases is modelled.
- Arbitrage.Bot.FindArbitrageOpportunities: the receipt wait's 60-second timeout is a `None` answer of the node, not a clock.
