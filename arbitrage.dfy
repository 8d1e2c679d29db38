/** The scanner cycle of the bot: building transaction parameters for a
    variant, gathering the candidates that pass the liquidity, token and
    profit gates, ordering them by profit, and attempting the best one whose
    pool pair is not banned, with the revert bookkeeping that follows. The
    node (nonce, signing and broadcast, receipts) is given as parameters. */
module Arbitrage {
  import opened Types
  import opened PoolFilter
  import opened ProfitCalculator
  import opened ArbExecutor

  const UNISWAP_ROUTER: Address := "0xE592427A0AEce92De3Edee1F18E0157C05861564"
  const CAMELOT_ROUTER: Address := "0x1F721E2E82F6676FCE4eA07A5958cF098D339e18"
  /** WETH on Arbitrum, the only input token the scanner accepts. */
  const WETH: Address := "0x82af49447d8a07e3bd95bd0d56f35241523fbab1"
  const ALLOWED_TOKENS: seq<Address> := [WETH]
  /** The notional of every trade, in USD. */
  const AMOUNT_IN_USDT: real := 100.0
  /** A candidate must promise strictly more than this, in USD. */
  const PROFIT_THRESHOLD: real := 0.1

  function TokenId(row: PoolRow, side: Side): Address {
    if side == Token0 then row.token0Id else row.token1Id
  }

  function RouterOf(venue: Venue): Address {
    if venue == Uniswap then UNISWAP_ROUTER else CAMELOT_ROUTER
  }

  function OtherVenue(venue: Venue): Venue {
    if venue == Uniswap then Camelot else Uniswap
  }

  // ---------------------------------------------------------------------
  // Transaction parameters

  /** A token quantity in base units, truncated toward zero. */
  function BaseUnits(amount: real, decimals: int): (n: int)
    ensures amount >= 0.0 ==> n >= 0 && n as real <= amount * Pow10(decimals) < n as real + 1.0
  {
    var e := Pow10(decimals);
    assert amount >= 0.0 ==> amount * e >= 0.0;
    Trunc(amount * e)
  }

  /** prepare_tx_data: routers in swap order, the input and output tokens,
      the Uniswap fee on the Uniswap leg (0 on the Camelot leg), and the
      input amount worth 100 USD in the input token's base units, truncated.
      None stands for the division by a zero input-token price. */
  function PrepareTxData(row: PoolRow, v: Variant): (r: Option<TxParams>)
    ensures r.None? <==> TokenPrice(row, v.TokenIn()) == 0.0
  {
    var side := v.TokenIn();
    var price := TokenPrice(row, side);
    if price == 0.0 then None
    else
      var routerA := RouterOf(v.First());
      var routerB := RouterOf(OtherVenue(v.First()));
      var feeA := if routerA == UNISWAP_ROUTER then row.uniFee else 0;
      var feeB := if routerB == UNISWAP_ROUTER then row.uniFee else 0;
      var amountIn := BaseUnits(AMOUNT_IN_USDT / price, TokenDecimals(row, side));
      Some(TxParams(routerA, routerB, TokenId(row, side), TokenId(row, Other(side)), feeA, feeB, amountIn))
  }

  lemma RoutersDiffer()
    ensures UNISWAP_ROUTER != CAMELOT_ROUTER
  {
    assert UNISWAP_ROUTER[2] != CAMELOT_ROUTER[2];
  }

  /** The two routers are the two venues' routers, the first one Uniswap's
      exactly for the Uniswap-first variants; the tokens are the row's two
      tokens, input as the variant names it; the Uniswap fee rides on the
      Uniswap leg and the other leg carries 0. */
  lemma PreparedRoute(row: PoolRow, v: Variant)
    requires TokenPrice(row, v.TokenIn()) != 0.0
    ensures var p := PrepareTxData(row, v).value;
      p.routerA != p.routerB
      && {p.routerA, p.routerB} == {UNISWAP_ROUTER, CAMELOT_ROUTER}
      && (p.routerA == UNISWAP_ROUTER <==> v.First() == Uniswap)
      && p.tokenIn == TokenId(row, v.TokenIn())
      && p.tokenOut == TokenId(row, Other(v.TokenIn()))
      && (p.tokenIn != p.tokenOut <==> row.token0Id != row.token1Id)
      && (if v.First() == Uniswap then p.feeA == row.uniFee && p.feeB == 0
          else p.feeA == 0 && p.feeB == row.uniFee)
  {
    RoutersDiffer();
  }

  /** The input amount is the 100 USD notional in base units, truncated
      toward zero: within one unit below the exact value for a positive
      price. */
  lemma PreparedAmount(row: PoolRow, v: Variant)
    requires TokenPrice(row, v.TokenIn()) > 0.0
    ensures var exact := AMOUNT_IN_USDT / TokenPrice(row, v.TokenIn()) * Pow10(TokenDecimals(row, v.TokenIn()));
      var n := PrepareTxData(row, v).value.amountIn;
      n >= 0 && n as real <= exact < n as real + 1.0
  {
    var price := TokenPrice(row, v.TokenIn());
    var q := AMOUNT_IN_USDT / price;
    QuotientNonNegative(AMOUNT_IN_USDT, price);
    assert PrepareTxData(row, v).value.amountIn == BaseUnits(q, TokenDecimals(row, v.TokenIn()));
  }

  lemma QuotientNonNegative(a: real, b: real)
    requires a >= 0.0 && b > 0.0
    ensures a / b >= 0.0
  {
    assert a / b * b == a;
  }

  /** The transaction follows the route the profit estimate priced: the
      first router belongs to the venue whose fee the estimate charged on
      the first leg, the input token's reference price is the one the
      estimate used, and the amount is the estimate's input quantity
      scaled to base units and truncated. */
  lemma TxFollowsEstimatedRoute(row: PoolRow, v: Variant, nU: real, nC: real)
    requires nU > 0.0 && nC > 0.0
    requires TokenPrice(row, v.TokenIn()) > 0.0
    ensures var p := PrepareTxData(row, v).value;
      var l := LegsOf(row, v, nU, nC, AMOUNT_IN_USDT);
      (p.routerA == UNISWAP_ROUTER ==> l.feeIn == row.uniFee && l.feeOut == row.camFee)
      && (p.routerA == CAMELOT_ROUTER ==> l.feeIn == row.camFee && l.feeOut == row.uniFee)
      && l.tokenInPrice == TokenPrice(row, v.TokenIn())
      && p.amountIn == BaseUnits(l.amountIn, TokenDecimals(row, v.TokenIn()))
  {
    LegsOfVariant(row, v, nU, nC, AMOUNT_IN_USDT);
    var price := TokenPrice(row, v.TokenIn());
    assert AmountFor(AMOUNT_IN_USDT, price) == AMOUNT_IN_USDT / price;
    RoutersDiffer();
  }

  // ---------------------------------------------------------------------
  // Candidate gates

  /** The allowed-token test, ignoring ASCII case: the list holds only
      WETH, so it admits exactly the spellings of WETH's address. */
  predicate IsAllowedToken(token: Address): (b: bool)
    ensures b <==> Lower(token) == WETH
  {
    WethIsLowerCase();
    assert Lower(token) == WETH ==> Lower(ALLOWED_TOKENS[0]) == Lower(token);
    exists i :: 0 <= i < |ALLOWED_TOKENS| && Lower(ALLOWED_TOKENS[i]) == Lower(token)
  }

  /** The token the scanner checks against the allowed list: Token0 when the
      label contains "Token0", else Token1. Every label contains "Token0",
      so it is Token0 whichever token the variant sells. */
  function CheckedToken(row: PoolRow, v: Variant): (t: Address)
    ensures t == row.token0Id
  {
    LabelContainsToken0(v);
    if Contains(Label(v), "Token0") then row.token0Id else row.token1Id
  }

  /** WETH's address is already lower case. */
  lemma WethIsLowerCase()
    ensures Lower(WETH) == WETH
  {
    var w := Lower(WETH);
    forall i | 0 <= i < |WETH| ensures w[i] == WETH[i] {
      assert !('A' <= WETH[i] <= 'Z');
    }
  }

  /** What the scanner reads from the outside world in one cycle. */
  datatype Market = Market(pd: PoolData, gasPrice: int, ethUsdt: real, latest: Block)

  /** The profit the scanner computes for one row and variant. */
  function ProfitOf(row: PoolRow, v: Variant, m: Market): real {
    CalculateProfit(row, m.pd, m.gasPrice, Label(v), m.ethUsdt, AMOUNT_IN_USDT)
  }

  /** The three judgements the scan makes: a row's liquidity, whether a
      variant's input token is admitted, and a variant's profit. The
      selection logic below holds for any gates; ScannerGates are the ones
      the bot uses. */
  datatype Gates = Gates(
    liquid: PoolRow -> bool,
    admitted: (PoolRow, Variant) -> bool,
    profit: (PoolRow, Variant) -> real)

  function ScannerGates(m: Market): Gates {
    Gates(
      row => PreFlightCheck(row, m.pd, m.ethUsdt),
      (row, v) => IsAllowedToken(CheckedToken(row, v)),
      (row, v) => ProfitOf(row, v, m))
  }

  /** One scanned opportunity: both symbols, the variant, its profit, the
      block it was found at, and the pool pair. */
  datatype Opportunity = Opportunity(
    token0: string, token1: string, variant: Variant, profit: real,
    block: Block, uniPool: Address, camPool: Address)

  function OpportunityOf(row: PoolRow, v: Variant, g: Gates, latest: Block): Opportunity {
    Opportunity(row.token0Symbol, row.token1Symbol, v, g.profit(row, v), latest, row.uniPool, row.camPool)
  }

  function KeyOfOpportunity(o: Opportunity): PoolKey {
    PoolKey(o.uniPool, o.camPool)
  }

  /** The two per-variant gates: allowed token and profit above threshold. */
  predicate PassesVariantGates(row: PoolRow, v: Variant, g: Gates) {
    g.admitted(row, v) && g.profit(row, v) > PROFIT_THRESHOLD
  }

  /** All three gates. */
  predicate Qualifies(row: PoolRow, v: Variant, g: Gates) {
    g.liquid(row) && PassesVariantGates(row, v, g)
  }

  /** The opportunities of one row over the variants vs, in order: at most
      one per variant, each above the profit threshold, stamped with the
      scan's block and the row's pool pair. */
  function VariantCandidates(row: PoolRow, vs: seq<Variant>, g: Gates, latest: Block): (r: seq<Opportunity>)
    ensures |r| <= |vs|
    ensures forall i :: 0 <= i < |r| ==>
      r[i].profit > PROFIT_THRESHOLD && r[i].block == latest
      && r[i].uniPool == row.uniPool && r[i].camPool == row.camPool
  {
    if vs == [] then []
    else
      var v := vs[|vs| - 1];
      VariantCandidates(row, vs[..|vs| - 1], g, latest)
        + (if PassesVariantGates(row, v, g) then [OpportunityOf(row, v, g, latest)] else [])
  }

  function RowCandidates(row: PoolRow, g: Gates, latest: Block): (r: seq<Opportunity>)
    ensures |r| <= 4
    ensures forall i :: 0 <= i < |r| ==>
      r[i].profit > PROFIT_THRESHOLD && r[i].block == latest
      && r[i].uniPool == row.uniPool && r[i].camPool == row.camPool
  {
    if g.liquid(row) then VariantCandidates(row, AllVariants, g, latest) else []
  }

  /** The opportunity list of one scan, in row order then variant order: at
      most four per row, each above the profit threshold and stamped with
      the scan's block. */
  function Candidates(pools: seq<PoolRow>, g: Gates, latest: Block): (r: seq<Opportunity>)
    ensures |r| <= 4 * |pools|
    ensures forall i :: 0 <= i < |r| ==> r[i].profit > PROFIT_THRESHOLD && r[i].block == latest
  {
    if pools == [] then []
    else Candidates(pools[..|pools| - 1], g, latest) + RowCandidates(pools[|pools| - 1], g, latest)
  }

  lemma {:induction false} VariantCandidatesMembers(row: PoolRow, vs: seq<Variant>, g: Gates, latest: Block, o: Opportunity)
    ensures o in VariantCandidates(row, vs, g, latest) <==>
      exists v :: v in vs && PassesVariantGates(row, v, g) && o == OpportunityOf(row, v, g, latest)
  {
    if vs != [] {
      var n := |vs| - 1;
      VariantCandidatesMembers(row, vs[..n], g, latest, o);
      if exists v :: v in vs && PassesVariantGates(row, v, g) && o == OpportunityOf(row, v, g, latest) {
        var v :| v in vs && PassesVariantGates(row, v, g) && o == OpportunityOf(row, v, g, latest);
        if v != vs[n] {
          var t :| 0 <= t < |vs| && vs[t] == v;
          assert vs[..n][t] == v;
        }
      }
    }
  }

  /** An opportunity is recorded exactly when some row and variant pass the
      liquidity gate, the allowed-token test and the profit threshold; it
      then carries that row's symbols and pools and that profit. */
  lemma {:induction false} CandidateGates(pools: seq<PoolRow>, g: Gates, latest: Block, o: Opportunity)
    ensures o in Candidates(pools, g, latest) <==>
      exists k, v :: 0 <= k < |pools| && Qualifies(pools[k], v, g) && o == OpportunityOf(pools[k], v, g, latest)
  {
    if o in Candidates(pools, g, latest) {
      CandidateHasGates(pools, g, latest, o);
    }
    if exists k, v :: 0 <= k < |pools| && Qualifies(pools[k], v, g) && o == OpportunityOf(pools[k], v, g, latest) {
      var k, v :| 0 <= k < |pools| && Qualifies(pools[k], v, g) && o == OpportunityOf(pools[k], v, g, latest);
      QualifiedIsCandidate(pools, g, latest, k, v);
    }
  }

  lemma {:induction false} CandidateHasGates(pools: seq<PoolRow>, g: Gates, latest: Block, o: Opportunity)
    requires o in Candidates(pools, g, latest)
    ensures exists k, v :: 0 <= k < |pools| && Qualifies(pools[k], v, g) && o == OpportunityOf(pools[k], v, g, latest)
  {
    var n := |pools| - 1;
    var prefix := pools[..n];
    if o in Candidates(prefix, g, latest) {
      CandidateHasGates(prefix, g, latest, o);
      var k, v :| 0 <= k < n && Qualifies(prefix[k], v, g) && o == OpportunityOf(prefix[k], v, g, latest);
      assert prefix[k] == pools[k];
    } else {
      assert o in RowCandidates(pools[n], g, latest);
      VariantCandidatesMembers(pools[n], AllVariants, g, latest, o);
      var v :| v in AllVariants && PassesVariantGates(pools[n], v, g) && o == OpportunityOf(pools[n], v, g, latest);
      assert Qualifies(pools[n], v, g);
    }
  }

  lemma {:induction false} QualifiedIsCandidate(pools: seq<PoolRow>, g: Gates, latest: Block, k: nat, v: Variant)
    requires k < |pools| && Qualifies(pools[k], v, g)
    ensures OpportunityOf(pools[k], v, g, latest) in Candidates(pools, g, latest)
  {
    var n := |pools| - 1;
    var prefix := pools[..n];
    var o := OpportunityOf(pools[k], v, g, latest);
    if k < n {
      assert prefix[k] == pools[k];
      QualifiedIsCandidate(prefix, g, latest, k, v);
    } else {
      QualifiedInRow(pools[n], v, g, latest);
    }
    InCandidatesOfPrefixOrLast(pools, g, latest, o);
  }

  /** A variant passing all three gates is among its row's candidates. */
  lemma QualifiedInRow(row: PoolRow, v: Variant, g: Gates, latest: Block)
    requires Qualifies(row, v, g)
    ensures OpportunityOf(row, v, g, latest) in RowCandidates(row, g, latest)
  {
    AllVariantsComplete(v);
    VariantCandidatesMembers(row, AllVariants, g, latest, OpportunityOf(row, v, g, latest));
  }

  /** The candidates of a pool list are those of all rows but the last,
      followed by the last row's. */
  lemma InCandidatesOfPrefixOrLast(pools: seq<PoolRow>, g: Gates, latest: Block, o: Opportunity)
    requires pools != []
    requires o in Candidates(pools[..|pools| - 1], g, latest) || o in RowCandidates(pools[|pools| - 1], g, latest)
    ensures o in Candidates(pools, g, latest)
  {
  }

  /** With the bot's gates, a row and variant qualify exactly when the row
      passes the liquidity pre-flight, its Token0 is WETH (in any case) and
      the computed profit exceeds 0.1 USD: the token the variant sells does
      not matter. */
  lemma ScannerQualifies(row: PoolRow, v: Variant, m: Market)
    ensures Qualifies(row, v, ScannerGates(m)) <==>
      PreFlightCheck(row, m.pd, m.ethUsdt) && Lower(row.token0Id) == WETH && ProfitOf(row, v, m) > 0.1
  {
  }

  // ---------------------------------------------------------------------
  // Ordering by profit

  predicate Descending(s: seq<Opportunity>) {
    forall i, j :: 0 <= i < j < |s| ==> s[i].profit >= s[j].profit
  }

  /** No entry promises more than bound. */
  predicate ProfitsAtMost(s: seq<Opportunity>, bound: real) {
    forall i :: 0 <= i < |s| ==> s[i].profit <= bound
  }

  /** Adding one entry within the bound to a bounded list, in any order,
      keeps it bounded. */
  lemma ProfitsAtMostPermutation(r: seq<Opportunity>, s: seq<Opportunity>, o: Opportunity, bound: real)
    requires multiset(r) == multiset(s) + multiset{o}
    requires ProfitsAtMost(s, bound) && o.profit <= bound
    ensures ProfitsAtMost(r, bound)
  {
    forall j | 0 <= j < |r| ensures r[j].profit <= bound {
      assert r[j] in multiset(r);
      if r[j] != o {
        assert r[j] in multiset(s);
      }
    }
  }

  /** An entry promising at least as much as every entry of a descending
      list can lead it. */
  lemma DescendingCons(x: Opportunity, s: seq<Opportunity>)
    requires Descending(s) && ProfitsAtMost(s, x.profit)
    ensures Descending([x] + s)
  {
  }

  function InsertByProfit(o: Opportunity, s: seq<Opportunity>): (r: seq<Opportunity>)
    requires Descending(s)
    ensures multiset(r) == multiset(s) + multiset{o}
    ensures Descending(r)
  {
    if s == [] then [o]
    else if o.profit >= s[0].profit then
      DescendingCons(o, s);
      [o] + s
    else
      var rest := InsertByProfit(o, s[1..]);
      assert s == [s[0]] + s[1..];
      ProfitsAtMostPermutation(rest, s[1..], o, s[0].profit);
      DescendingCons(s[0], rest);
      [s[0]] + rest
  }

  /** The descending sort by profit: a permutation of its input. Ties are
      left in no particular order. */
  function SortByProfit(s: seq<Opportunity>): (r: seq<Opportunity>)
    ensures multiset(r) == multiset(s)
    ensures Descending(r)
  {
    if s == [] then []
    else
      var n := |s| - 1;
      assert s == s[..n] + [s[n]];
      InsertByProfit(s[n], SortByProfit(s[..n]))
  }

  // ---------------------------------------------------------------------
  // Selection

  /** The position of the first entry whose pool pair is not banned. */
  function FirstUnbanned(s: seq<Opportunity>, banned: map<PoolKey, int>, latest: Block): (r: Option<nat>)
    ensures r.Some? ==> r.value < |s| && !IsPoolBanned(KeyOfOpportunity(s[r.value]), banned, latest)
    ensures r.Some? ==> forall j :: 0 <= j < r.value ==> IsPoolBanned(KeyOfOpportunity(s[j]), banned, latest)
    ensures r.None? ==> forall j :: 0 <= j < |s| ==> IsPoolBanned(KeyOfOpportunity(s[j]), banned, latest)
  {
    if s == [] then None
    else if !IsPoolBanned(KeyOfOpportunity(s[0]), banned, latest) then Some(0)
    else match FirstUnbanned(s[1..], banned, latest)
      case None => None
      case Some(i) => Some(i + 1)
  }

  /** The first unbanned entry is determined by the banned prefix before it. */
  lemma FirstUnbannedAt(s: seq<Opportunity>, banned: map<PoolKey, int>, latest: Block, i: nat)
    requires i < |s| && !IsPoolBanned(KeyOfOpportunity(s[i]), banned, latest)
    requires forall j :: 0 <= j < i ==> IsPoolBanned(KeyOfOpportunity(s[j]), banned, latest)
    ensures FirstUnbanned(s, banned, latest) == Some(i)
  {
  }

  /** With every entry banned there is no first unbanned one. */
  lemma FirstUnbannedNone(s: seq<Opportunity>, banned: map<PoolKey, int>, latest: Block)
    requires forall j :: 0 <= j < |s| ==> IsPoolBanned(KeyOfOpportunity(s[j]), banned, latest)
    ensures FirstUnbanned(s, banned, latest) == None
  {
  }

  predicate RowMatches(row: PoolRow, uni: Address, cam: Address) {
    row.uniPool == uni && row.camPool == cam
  }

  /** The first row of the pool list with the given pool pair. */
  function FirstRowIndex(pools: seq<PoolRow>, uni: Address, cam: Address): (r: Option<nat>)
    ensures r.Some? ==> r.value < |pools| && RowMatches(pools[r.value], uni, cam)
    ensures r.Some? ==> forall j :: 0 <= j < r.value ==> !RowMatches(pools[j], uni, cam)
    ensures r.None? ==> forall j :: 0 <= j < |pools| ==> !RowMatches(pools[j], uni, cam)
  {
    if pools == [] then None
    else if RowMatches(pools[0], uni, cam) then Some(0)
    else match FirstRowIndex(pools[1..], uni, cam)
      case None => None
      case Some(i) => Some(i + 1)
  }

  /** Every entry of the sorted list came from a row of the pool list. */
  lemma SortedEntryHasRow(pools: seq<PoolRow>, g: Gates, latest: Block, i: nat)
    requires i < |SortByProfit(Candidates(pools, g, latest))|
    ensures var o := SortByProfit(Candidates(pools, g, latest))[i];
      FirstRowIndex(pools, o.uniPool, o.camPool).Some?
  {
    var sorted := SortByProfit(Candidates(pools, g, latest));
    var o := sorted[i];
    assert o in multiset(sorted);
    assert o in Candidates(pools, g, latest);
    CandidateGates(pools, g, latest, o);
    var k, v :| 0 <= k < |pools| && Qualifies(pools[k], v, g) && o == OpportunityOf(pools[k], v, g, latest);
    assert RowMatches(pools[k], o.uniPool, o.camPool);
  }

  // ---------------------------------------------------------------------
  // One cycle as a function of its inputs

  /** The node as the scanner sees it: the account's transaction count
      (None when reading it fails), signing and broadcasting (None on
      failure), and the status of the receipt for a hash (None when waiting
      for it times out). */
  datatype Node = Node(
    chainCount: Option<nat>,
    submit: Transaction -> Option<TxHash>,
    receipt: TxHash -> Option<int>)

  datatype CycleError = ZeroTokenPrice | ReceiptTimeout

  /** How a cycle ends: normally, or by an exception escaping the scanner. */
  datatype CycleEnd = Finished | Raised(error: CycleError)

  /** The circuit-breaker maps and the last-used nonce after a cycle, how it
      ended, and the opportunity a send was prepared for, if any. */
  datatype CycleResult = CycleResult(
    health: HealthState, lastNonce: Option<nat>, end: CycleEnd, attempted: Option<Opportunity>)

  /** The attempt for one selected opportunity, with the row it resolves
      to: prepare, send, wait for the receipt, update the maps. The
      preparation raises exactly when the input token's price is zero, and
      an exception leaves the maps as they were. */
  function Attempt(row: PoolRow, o: Opportunity, latest: Block, s: HealthState, last: Option<nat>,
                   account: Address, node: Node): (r: CycleResult)
    ensures r.attempted == Some(o)
    ensures r.end == Raised(ZeroTokenPrice) <==> TokenPrice(row, o.variant.TokenIn()) == 0.0
    ensures r.end.Raised? ==> r.health == s
  {
    match PrepareTxData(row, o.variant)
    case None => CycleResult(s, last, Raised(ZeroTokenPrice), Some(o))
    case Some(p) =>
      var sent := SendStep(last, p, account, node.chainCount, node.submit);
      if sent.txHash.None? then CycleResult(s, sent.lastUsed, Finished, Some(o))
      else match node.receipt(sent.txHash.value)
        case None => CycleResult(s, sent.lastUsed, Raised(ReceiptTimeout), Some(o))
        case Some(status) => CycleResult(OnReceipt(s, KeyOf(row), latest, status), sent.lastUsed, Finished, Some(o))
  }

  /** Every entry of a list names the pool pair of some row. */
  predicate EntriesHaveRows(pools: seq<PoolRow>, s: seq<Opportunity>) {
    forall i :: 0 <= i < |s| ==> FirstRowIndex(pools, s[i].uniPool, s[i].camPool).Some?
  }

  lemma SortedEntriesHaveRows(pools: seq<PoolRow>, g: Gates, latest: Block)
    ensures EntriesHaveRows(pools, SortByProfit(Candidates(pools, g, latest)))
  {
    forall i | 0 <= i < |SortByProfit(Candidates(pools, g, latest))| {
      SortedEntryHasRow(pools, g, latest, i);
    }
  }

  /** The first unbanned entry of a sorted list and the first row with its
      pool pair. */
  function SelectFrom(pools: seq<PoolRow>, sorted: seq<Opportunity>, banned: map<PoolKey, int>, latest: Block): (r: Option<(Opportunity, PoolRow)>)
    requires EntriesHaveRows(pools, sorted)
    ensures r.Some? ==>
      r.value.0 in sorted && !IsPoolBanned(KeyOfOpportunity(r.value.0), banned, latest)
      && r.value.1 in pools && KeyOf(r.value.1) == KeyOfOpportunity(r.value.0)
  {
    match FirstUnbanned(sorted, banned, latest)
    case None => None
    case Some(i) =>
      var o := sorted[i];
      Some((o, pools[FirstRowIndex(pools, o.uniPool, o.camPool).value]))
  }

  /** The entry a cycle attempts and the row it resolves to, if any: a
      candidate of the scan whose pool pair is not banned, with a row of the
      pool list having that pair. */
  function Selection(pools: seq<PoolRow>, g: Gates, latest: Block, banned: map<PoolKey, int>): (r: Option<(Opportunity, PoolRow)>)
    ensures r.Some? ==>
      r.value.0 in Candidates(pools, g, latest) && !IsPoolBanned(KeyOfOpportunity(r.value.0), banned, latest)
      && r.value.1 in pools && KeyOf(r.value.1) == KeyOfOpportunity(r.value.0)
  {
    SortedEntriesHaveRows(pools, g, latest);
    var sorted := SortByProfit(Candidates(pools, g, latest));
    var r := SelectFrom(pools, sorted, banned, latest);
    assert r.Some? ==> r.value.0 in multiset(sorted);
    r
  }

  /** The rest of a cycle once the selection is known. */
  function AfterSelection(sel: Option<(Opportunity, PoolRow)>, latest: Block, s: HealthState, last: Option<nat>,
                          account: Address, node: Node): CycleResult
  {
    match sel
    case None => CycleResult(s, last, Finished, None)
    case Some((o, row)) => Attempt(row, o, latest, s, last, account, node)
  }

  /** find_arbitrage_opportunities: the best-profit candidate whose pool
      pair is not banned is attempted; with no such candidate nothing
      changes. */
  function ScanCycle(pools: seq<PoolRow>, g: Gates, latest: Block, s: HealthState, last: Option<nat>,
                     account: Address, node: Node): (r: CycleResult)
    ensures r.attempted.Some? ==>
      r.attempted.value in Candidates(pools, g, latest)
      && !IsPoolBanned(KeyOfOpportunity(r.attempted.value), s.banned, latest)
    ensures r.end.Raised? ==> r.attempted.Some? && r.health == s
  {
    AfterSelection(Selection(pools, g, latest, s.banned), latest, s, last, account, node)
  }

  /** The selection is the first unbanned entry of the sorted candidates. */
  lemma SelectionIsFirstUnbanned(pools: seq<PoolRow>, g: Gates, latest: Block, banned: map<PoolKey, int>)
    ensures var sorted := SortByProfit(Candidates(pools, g, latest));
      var sel := Selection(pools, g, latest, banned);
      var i := FirstUnbanned(sorted, banned, latest);
      (sel.None? <==> i.None?)
      && (sel.Some? ==>
            sel.value.0 == sorted[i.value]
            && RowMatches(sel.value.1, sel.value.0.uniPool, sel.value.0.camPool)
            && sel.value.1 in pools)
  {
    var sorted := SortByProfit(Candidates(pools, g, latest));
    var i := FirstUnbanned(sorted, banned, latest);
    if i.Some? {
      SortedEntryHasRow(pools, g, latest, i.value);
      var o := sorted[i.value];
      var k := FirstRowIndex(pools, o.uniPool, o.camPool).value;
      assert Selection(pools, g, latest, banned) == Some((o, pools[k]));
    }
  }

  /** In a list sorted by descending profit whose first i entries are
      banned, every entry with more profit than entry i is banned. */
  lemma MoreProfitableEntriesBanned(sorted: seq<Opportunity>, i: nat, banned: map<PoolKey, int>, latest: Block, c: Opportunity)
    requires Descending(sorted) && i < |sorted|
    requires forall j :: 0 <= j < i ==> IsPoolBanned(KeyOfOpportunity(sorted[j]), banned, latest)
    requires c in sorted && c.profit > sorted[i].profit
    ensures IsPoolBanned(KeyOfOpportunity(c), banned, latest)
  {
    var j :| 0 <= j < |sorted| && sorted[j] == c;
  }

  /** The selected entry is a recorded candidate whose pool pair is not
      banned, resolved to a row with that pool pair, and every candidate
      promising more profit is banned. */
  lemma SelectionIsBest(pools: seq<PoolRow>, g: Gates, latest: Block, banned: map<PoolKey, int>, o: Opportunity, row: PoolRow)
    requires Selection(pools, g, latest, banned) == Some((o, row))
    ensures o in Candidates(pools, g, latest)
    ensures row in pools && KeyOf(row) == KeyOfOpportunity(o)
    ensures !IsPoolBanned(KeyOfOpportunity(o), banned, latest)
    ensures forall c :: c in Candidates(pools, g, latest) && c.profit > o.profit ==>
      IsPoolBanned(KeyOfOpportunity(c), banned, latest)
  {
    SelectionIsFirstUnbanned(pools, g, latest, banned);
    var cands := Candidates(pools, g, latest);
    var sorted := SortByProfit(cands);
    var i := FirstUnbanned(sorted, banned, latest).value;
    assert o in multiset(sorted);
    forall c | c in cands && c.profit > o.profit
      ensures IsPoolBanned(KeyOfOpportunity(c), banned, latest)
    {
      assert c in multiset(sorted);
      MoreProfitableEntriesBanned(sorted, i, banned, latest, c);
    }
  }

  /** When every candidate's pool pair is banned, or there is none, nothing
      is selected. */
  lemma AllBannedNoSelection(pools: seq<PoolRow>, g: Gates, latest: Block, banned: map<PoolKey, int>)
    requires forall c :: c in Candidates(pools, g, latest) ==> IsPoolBanned(KeyOfOpportunity(c), banned, latest)
    ensures Selection(pools, g, latest, banned) == None
  {
    SelectionIsFirstUnbanned(pools, g, latest, banned);
    var sorted := SortByProfit(Candidates(pools, g, latest));
    forall j | 0 <= j < |sorted|
      ensures IsPoolBanned(KeyOfOpportunity(sorted[j]), banned, latest)
    {
      assert sorted[j] in multiset(sorted);
    }
  }

  /** At most one opportunity is attempted, and it is the selected one;
      without a selection nothing changes. The circuit-breaker maps change
      only after a broadcast returned a hash, which also committed a nonce
      above the previous one, and the change is the receipt update for the
      attempted pool pair. */
  lemma CycleEffects(pools: seq<PoolRow>, g: Gates, latest: Block, s: HealthState, last: Option<nat>,
                     account: Address, node: Node)
    ensures var r := ScanCycle(pools, g, latest, s, last, account, node);
      var sel := Selection(pools, g, latest, s.banned);
      (sel.None? ==> r == CycleResult(s, last, Finished, None))
      && (sel.Some? ==> r.attempted == Some(sel.value.0))
      && (r.health != s ==>
            r.end == Finished && r.lastNonce.Some?
            && (last.Some? ==> r.lastNonce.value > last.value)
            && exists status :: r.health == OnReceipt(s, KeyOfOpportunity(sel.value.0), latest, status))
  {
    var sel := Selection(pools, g, latest, s.banned);
    if sel.Some? {
      var (o, row) := sel.value;
      SelectionIsBest(pools, g, latest, s.banned, o, row);
      AttemptEffects(row, o, latest, s, last, account, node);
    }
  }

  /** An attempt reports its opportunity; the maps change only after a
      broadcast returned a hash and committed a nonce above the previous
      one, and then by the receipt update for the row's pool pair. */
  lemma AttemptEffects(row: PoolRow, o: Opportunity, latest: Block, s: HealthState, last: Option<nat>,
                       account: Address, node: Node)
    ensures var r := Attempt(row, o, latest, s, last, account, node);
      r.attempted == Some(o)
      && (r.health != s ==>
            r.end == Finished && r.lastNonce.Some?
            && (last.Some? ==> r.lastNonce.value > last.value)
            && exists status :: r.health == OnReceipt(s, KeyOf(row), latest, status))
  {
    var r := Attempt(row, o, latest, s, last, account, node);
    if r.health != s {
      var p := PrepareTxData(row, o.variant).value;
      var sent := SendStep(last, p, account, node.chainCount, node.submit);
      assert r.health == OnReceipt(s, KeyOf(row), latest, node.receipt(sent.txHash.value).value);
    }
  }

  // ---------------------------------------------------------------------
  // The scanner with its process-wide state

  class Bot {
    const health: PoolHealth
    const executor: Executor
    var iterationCount: nat

    constructor (account: Address)
      ensures fresh(health) && fresh(executor)
      ensures health.State() == HealthState(map[], map[], map[])
      ensures executor.account == account && executor.lastUsedNonce == None
      ensures iterationCount == 0
    {
      health := new PoolHealth();
      executor := new Executor(account);
      iterationCount := 0;
    }

    /** The outer scan loop of find_arbitrage_opportunities, judging rows
        and variants through the gates: the opportunity list in row order,
        then variant order. */
    method CollectOpportunities(pools: seq<PoolRow>, g: Gates, latest: Block) returns (opportunities: seq<Opportunity>)
      ensures opportunities == Candidates(pools, g, latest)
    {
      opportunities := [];
      for k := 0 to |pools|
        invariant opportunities == Candidates(pools[..k], g, latest)
      {
        var row := pools[k];
        assert pools[..k + 1][..k] == pools[..k];
        if !g.liquid(row) {
          continue;
        }
        opportunities := ScanVariants(row, g, latest, opportunities);
      }
      assert pools[..|pools|] == pools;
    }

    /** The inner scan loop: the four variants of one row that pass the
        token and profit gates, appended in order. */
    method ScanVariants(row: PoolRow, g: Gates, latest: Block, before: seq<Opportunity>) returns (opportunities: seq<Opportunity>)
      ensures opportunities == before + VariantCandidates(row, AllVariants, g, latest)
    {
      opportunities := before;
      for vi := 0 to |AllVariants|
        invariant opportunities == before + VariantCandidates(row, AllVariants[..vi], g, latest)
      {
        var v := AllVariants[vi];
        var profit := g.profit(row, v);
        assert AllVariants[..vi + 1][..vi] == AllVariants[..vi];
        if !g.admitted(row, v) {
          continue;
        }
        if profit > PROFIT_THRESHOLD {
          opportunities := opportunities + [Opportunity(row.token0Symbol, row.token1Symbol, v, profit, latest, row.uniPool, row.camPool)];
        }
      }
      assert AllVariants[..|AllVariants|] == AllVariants;
    }

    /** The sorted list is walked in order, skipping banned pool pairs; the
        first unbanned entry is the selection. */
    method SelectBest(pools: seq<PoolRow>, latest: Block, opportunities: seq<Opportunity>)
      returns (sel: Option<(Opportunity, PoolRow)>)
      requires EntriesHaveRows(pools, SortByProfit(opportunities))
      ensures sel == SelectFrom(pools, SortByProfit(opportunities), health.bannedPools, latest)
    {
      var sorted := SortByProfit(opportunities);
      for i := 0 to |sorted|
        invariant forall j :: 0 <= j < i ==> IsPoolBanned(KeyOfOpportunity(sorted[j]), health.bannedPools, latest)
      {
        var best := sorted[i];
        var rowData := pools[FirstRowIndex(pools, best.uniPool, best.camPool).value];
        var poolKey := PoolKey(rowData.uniPool, rowData.camPool);
        assert poolKey == KeyOfOpportunity(best);
        if IsPoolBanned(poolKey, health.bannedPools, latest) {
          continue;
        }
        FirstUnbannedAt(sorted, health.bannedPools, latest, i);
        return Some((best, rowData));
      }
      FirstUnbannedNone(sorted, health.bannedPools, latest);
      return None;
    }

    /** The send attempt for the selected entry, if any, and the receipt
        update. */
    method AttemptSelection(sel: Option<(Opportunity, PoolRow)>, latest: Block, node: Node)
      returns (end: CycleEnd, attempted: Option<Opportunity>)
      modifies health, executor
      ensures var r := AfterSelection(sel, latest, old(health.State()), old(executor.lastUsedNonce), executor.account, node);
        health.State() == r.health && executor.lastUsedNonce == r.lastNonce
        && end == r.end && attempted == r.attempted
    {
      if sel.None? {
        return Finished, None;
      }
      var (best, rowData) := sel.value;
      attempted := Some(best);
      var txData := PrepareTxData(rowData, best.variant);
      if txData.None? {
        return Raised(ZeroTokenPrice), attempted;
      }
      var txHash := executor.SendArbitrageTx(txData.value, node.chainCount, node.submit);
      if txHash.Some? {
        var status := node.receipt(txHash.value);
        if status.None? {
          return Raised(ReceiptTimeout), attempted;
        }
        health.RecordReceipt(KeyOf(rowData), latest, status.value);
      }
      return Finished, attempted;
    }

    /** find_arbitrage_opportunities: collect the candidates through the
        bot's gates, sort them, and attempt the first unbanned one once;
        the iteration counter advances unless an exception escapes. */
    method FindArbitrageOpportunities(pools: seq<PoolRow>, m: Market, node: Node)
      returns (end: CycleEnd, attempted: Option<Opportunity>)
      modifies this, health, executor
      ensures var r := ScanCycle(pools, ScannerGates(m), m.latest, old(health.State()),
                                 old(executor.lastUsedNonce), executor.account, node);
        health.State() == r.health && executor.lastUsedNonce == r.lastNonce
        && end == r.end && attempted == r.attempted
      ensures iterationCount == old(iterationCount) + (if end == Finished then 1 else 0)
    {
      var gates := ScannerGates(m);
      var opportunities := CollectOpportunities(pools, gates, m.latest);
      if opportunities == [] {
        AllBannedNoSelection(pools, gates, m.latest, health.bannedPools);
        iterationCount := iterationCount + 1;
        return Finished, None;
      }
      SortedEntriesHaveRows(pools, gates, m.latest);
      var sel := SelectBest(pools, m.latest, opportunities);
      end, attempted := AttemptSelection(sel, m.latest, node);
      if end == Finished {
        iterationCount := iterationCount + 1;
      }
    }
  }
}
