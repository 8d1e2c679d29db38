/** Profitability: normalisation of the square-root fixed-point prices, the
    cross-venue ratio bound, the four swap variants with their fees, the
    gas cost, and the liquidity (TVL) pre-flight filter. Floating point is
    modelled by exact reals. */
module ProfitCalculator {
  import opened Types

  /** 2^192: a Q64.96 square-root price squared carries 192 fraction bits. */
  const Q192: real := 6277101735386680763835789423207666416102355444464034512896.0
  /** Fees are expressed in units of 1/100000. */
  const FEE_DENOMINATOR: real := 100000.0
  /** Fixed gas-unit estimate of one arbitrage transaction. */
  const GAS_UNITS: real := 450000.0
  const WEI_PER_ETH: real := 1000000000000000000.0
  /** Every pool side must hold at least this much value, in USD. */
  const MIN_TVL_USD: real := 1500.0

  function TokenPrice(row: PoolRow, side: Side): real {
    if side == Token0 then row.token0Price else row.token1Price
  }

  function TokenDecimals(row: PoolRow, side: Side): int {
    if side == Token0 then row.token0Decimals else row.token1Decimals
  }

  /** The raw price stored for a pool, 0 when the pool or the field is
      absent (`pool_data.get(id, {}).get(field, 0)`). */
  function RawPrice(pd: PoolData, row: PoolRow, f: Field): int {
    if row.uniPool in pd && f in pd[row.uniPool] then pd[row.uniPool][f] else 0
  }

  /** raw^2 / 2^192 * 10^(d0 - d1): the token1-per-token0 price encoded by
      a square-root price; never negative, and zero only for a zero raw
      value. */
  function NormalizedPrice(raw: int, d0: int, d1: int): (p: real)
    ensures p >= 0.0
    ensures p > 0.0 <==> raw != 0
  {
    var sq := raw * raw;
    assert raw != 0 ==> sq > 0 by {
      if raw > 0 { assert raw * raw >= raw; } else if raw < 0 { assert raw * raw >= -raw; }
    }
    var scaled := sq as real / Q192;
    assert scaled >= 0.0 && (raw != 0 ==> scaled > 0.0);
    scaled * Pow10(d0 - d1)
  }

  /** The quantity of one token worth the notional in USD, or 0 when the
      token has no positive price. */
  function AmountFor(notional: real, price: real): real {
    if price > 0.0 then notional / price else 0.0
  }

  /** The parameters of one variant: input amount, the price applied on each
      leg, the fee charged on each leg, and the USD price of the input. */
  datatype Legs = Legs(amountIn: real, priceIn: real, priceOut: real,
                       feeIn: int, feeOut: int, tokenInPrice: real)

  /** The lookup table from variant to legs. */
  function LegsOf(row: PoolRow, v: Variant, nU: real, nC: real, notional: real): Legs
    requires nU > 0.0 && nC > 0.0
  {
    match v
    case UniToCam0 =>
      Legs(AmountFor(notional, row.token0Price), nU, 1.0 / nC, row.uniFee, row.camFee, row.token0Price)
    case UniToCam1 =>
      Legs(AmountFor(notional, row.token1Price), 1.0 / nU, nC, row.uniFee, row.camFee, row.token1Price)
    case CamToUni0 =>
      Legs(AmountFor(notional, row.token0Price), nC, 1.0 / nU, row.camFee, row.uniFee, row.token0Price)
    case CamToUni1 =>
      Legs(AmountFor(notional, row.token1Price), 1.0 / nC, nU, row.camFee, row.uniFee, row.token1Price)
  }

  /** The fraction of an amount kept after a fee. */
  function Keep(fee: int): real {
    1.0 - fee as real / FEE_DENOMINATOR
  }

  /** 450000 gas units at the given price in wei, in USD. */
  function GasCostUsd(gasPrice: int, ethUsdt: real): real {
    GAS_UNITS * gasPrice as real / WEI_PER_ETH * ethUsdt
  }

  /** Both swaps, then the USD difference minus gas. */
  function NetProfit(l: Legs, gasPrice: int, ethUsdt: real): real {
    var afterFirst := l.amountIn * l.priceIn * Keep(l.feeIn);
    var afterSecond := afterFirst * l.priceOut * Keep(l.feeOut);
    var profitUsd := if l.tokenInPrice > 0.0 then (afterSecond - l.amountIn) * l.tokenInPrice else 0.0;
    profitUsd - GasCostUsd(gasPrice, ethUsdt)
  }

  /** The profit once both normalised prices are known (and positive). The
      output-price guard tests whether the variant label contains "Token0",
      which every label does. A non-zero profit needs prices within a factor
      3 of each other, a recognised label and a positive Token0 price. */
  function ProfitFromPrices(row: PoolRow, nU: real, nC: real, variant: string,
                            gasPrice: int, ethUsdt: real, notional: real): (r: real)
    requires nU > 0.0 && nC > 0.0
    ensures r != 0.0 ==>
      1.0 / 3.0 <= nU / nC <= 3.0 && ParseLabel(variant).Some? && row.token0Price > 0.0
  {
    var ratio := nU / nC;
    if ratio < 1.0 / 3.0 || ratio > 3.0 then 0.0
    else match ParseLabel(variant)
      case None => 0.0
      case Some(v) =>
        LabelContainsToken0(v);
        var tokenOutPrice := if Contains(variant, "Token0") then row.token0Price else row.token1Price;
        if tokenOutPrice <= 0.0 then 0.0
        else NetProfit(LegsOf(row, v, nU, nC, notional), gasPrice, ethUsdt)
  }

  /** calculate_profit. A non-zero profit needs both raw prices of the
      pool, a recognised label and a positive Token0 price. */
  function CalculateProfit(row: PoolRow, pd: PoolData, gasPrice: int, variant: string,
                           ethUsdt: real, notional: real): (r: real)
    ensures r != 0.0 ==>
      row.uniPool in pd && RawPrice(pd, row, UniswapPrice) != 0 && RawPrice(pd, row, CamelotPrice) != 0
      && ParseLabel(variant).Some? && row.token0Price > 0.0
  {
    var rawU := RawPrice(pd, row, UniswapPrice);
    var rawC := RawPrice(pd, row, CamelotPrice);
    if rawU == 0 || rawC == 0 then 0.0
    else
      ProfitFromPrices(row,
        NormalizedPrice(rawU, row.token0Decimals, row.token1Decimals),
        NormalizedPrice(rawC, row.token0Decimals, row.token1Decimals),
        variant, gasPrice, ethUsdt, notional)
  }

  // ---------------------------------------------------------------------
  // Pre-flight liquidity filter

  /** The four balance fields, checked in this order. */
  const BalanceFields: seq<Field> := [Token0BalanceUni, Token1BalanceUni, Token0BalanceCam, Token1BalanceCam]

  function BalanceSide(f: Field): Side {
    if f == Token0BalanceUni || f == Token0BalanceCam then Token0 else Token1
  }

  /** A balance converted to whole tokens and then to USD. */
  function BalanceUsd(row: PoolRow, data: Reading, f: Field): real
    requires f in data
  {
    data[f] as real / Pow10(TokenDecimals(row, BalanceSide(f))) * TokenPrice(row, BalanceSide(f))
  }

  /** pre_flight_check: the pool has a reading holding all four balances,
      and each is worth at least MIN_TVL_USD. */
  function PreFlightCheck(row: PoolRow, pd: PoolData, ethUsdt: real): (ok: bool)
    ensures ok <==>
      row.uniPool in pd
      && forall f :: f in BalanceFields ==> f in pd[row.uniPool] && BalanceUsd(row, pd[row.uniPool], f) >= MIN_TVL_USD
  {
    if row.uniPool !in pd then false
    else if pd[row.uniPool] == map[] then
      assert BalanceFields[0] !in pd[row.uniPool];
      false
    else
      var data := pd[row.uniPool];
      if !(Token0BalanceUni in data && Token1BalanceUni in data
           && Token0BalanceCam in data && Token1BalanceCam in data) then false
      else
        BalanceUsd(row, data, Token0BalanceUni) >= MIN_TVL_USD
        && BalanceUsd(row, data, Token1BalanceUni) >= MIN_TVL_USD
        && BalanceUsd(row, data, Token0BalanceCam) >= MIN_TVL_USD
        && BalanceUsd(row, data, Token1BalanceCam) >= MIN_TVL_USD
  }

  // ---------------------------------------------------------------------
  // Properties

  /** A missing reading or a zero raw price on either venue gives 0. */
  lemma NoPriceNoProfit(row: PoolRow, pd: PoolData, gasPrice: int, variant: string, ethUsdt: real, notional: real)
    requires row.uniPool !in pd || RawPrice(pd, row, UniswapPrice) == 0 || RawPrice(pd, row, CamelotPrice) == 0
    ensures CalculateProfit(row, pd, gasPrice, variant, ethUsdt, notional) == 0.0
  {
  }

  /** The ratio bound compares squared raw prices: the decimals cancel. */
  lemma RatioOfNormalized(rawU: int, rawC: int, d0: int, d1: int)
    requires rawC != 0
    ensures NormalizedPrice(rawU, d0, d1) / NormalizedPrice(rawC, d0, d1)
            == (rawU * rawU) as real / (rawC * rawC) as real
  {
    var k := Pow10(d0 - d1) / Q192;
    var x, y := (rawU * rawU) as real, (rawC * rawC) as real;
    assert NormalizedPrice(rawU, d0, d1) == x * k;
    assert NormalizedPrice(rawC, d0, d1) == y * k;
    assert y > 0.0 by { assert NormalizedPrice(rawC, d0, d1) > 0.0; }
    CancelCommonFactor(x, y, k);
  }

  lemma CancelCommonFactor(x: real, y: real, k: real)
    requires y != 0.0 && k != 0.0
    ensures (x * k) / (y * k) == x / y
  {
  }

  /** Prices more than a factor 3 apart give 0 for every variant. */
  lemma OutOfBandNoProfit(row: PoolRow, nU: real, nC: real, variant: string, gasPrice: int, ethUsdt: real, notional: real)
    requires nU > 0.0 && nC > 0.0
    requires nU / nC < 1.0 / 3.0 || nU / nC > 3.0
    ensures ProfitFromPrices(row, nU, nC, variant, gasPrice, ethUsdt, notional) == 0.0
  {
  }

  /** Any string other than the four labels gives 0. */
  lemma UnknownLabelNoProfit(row: PoolRow, nU: real, nC: real, variant: string, gasPrice: int, ethUsdt: real, notional: real)
    requires nU > 0.0 && nC > 0.0
    requires forall v: Variant :: Label(v) != variant
    ensures ProfitFromPrices(row, nU, nC, variant, gasPrice, ethUsdt, notional) == 0.0
  {
  }

  /** The fee of the venue swapped on first is charged on the input leg and
      the other venue's on the output leg; the input amount and its USD
      price are those of the variant's input token. */
  lemma LegsOfVariant(row: PoolRow, v: Variant, nU: real, nC: real, notional: real)
    requires nU > 0.0 && nC > 0.0
    ensures var l := LegsOf(row, v, nU, nC, notional);
      l.feeIn == (if v.First() == Uniswap then row.uniFee else row.camFee)
      && l.feeOut == (if v.First() == Uniswap then row.camFee else row.uniFee)
      && l.tokenInPrice == TokenPrice(row, v.TokenIn())
      && l.amountIn == AmountFor(notional, TokenPrice(row, v.TokenIn()))
  {
  }

  /** The output-price guard always reads Token0's price, since every variant
      contains "Token0": a non-positive Token0 price gives 0 for all four
      variants, the Token1-in ones included. */
  lemma Token0PriceGuardsAllVariants(row: PoolRow, v: Variant, nU: real, nC: real, gasPrice: int, ethUsdt: real, notional: real)
    requires nU > 0.0 && nC > 0.0
    requires row.token0Price <= 0.0
    ensures ProfitFromPrices(row, nU, nC, Label(v), gasPrice, ethUsdt, notional) == 0.0
  {
    LabelContainsToken0(v);
    ParseLabelRoundTrip(v);
  }

  /** The product of the two leg prices: the round-trip exchange rate. */
  function RoundTripRate(v: Variant, nU: real, nC: real): real
    requires nU > 0.0 && nC > 0.0
  {
    if v == UniToCam0 || v == CamToUni1 then nU / nC else nC / nU
  }

  /** Inside the band (both ends included), with a positive Token0 price,
      every variant is evaluated; when its input token has a positive price
      the profit is the notional times the fee-adjusted round-trip rate
      minus one, less gas. Without a positive input price only the gas cost
      remains. */
  lemma ProfitClosedForm(row: PoolRow, v: Variant, nU: real, nC: real, gasPrice: int, ethUsdt: real, notional: real)
    requires nU > 0.0 && nC > 0.0
    requires 1.0 / 3.0 <= nU / nC <= 3.0
    requires row.token0Price > 0.0
    ensures var p := TokenPrice(row, v.TokenIn());
      var l := LegsOf(row, v, nU, nC, notional);
      ProfitFromPrices(row, nU, nC, Label(v), gasPrice, ethUsdt, notional)
      == if p > 0.0 then notional * (RoundTripRate(v, nU, nC) * Keep(l.feeIn) * Keep(l.feeOut) - 1.0) - GasCostUsd(gasPrice, ethUsdt)
         else -GasCostUsd(gasPrice, ethUsdt)
  {
    InBandEvaluates(row, v, nU, nC, gasPrice, ethUsdt, notional);
    LegsClosedForm(row, v, nU, nC, gasPrice, ethUsdt, notional);
  }

  /** The closed form of a variant's net profit, from its legs. */
  lemma LegsClosedForm(row: PoolRow, v: Variant, nU: real, nC: real, gasPrice: int, ethUsdt: real, notional: real)
    requires nU > 0.0 && nC > 0.0
    ensures var p := TokenPrice(row, v.TokenIn());
      var l := LegsOf(row, v, nU, nC, notional);
      NetProfit(l, gasPrice, ethUsdt)
      == if p > 0.0 then notional * (RoundTripRate(v, nU, nC) * Keep(l.feeIn) * Keep(l.feeOut) - 1.0) - GasCostUsd(gasPrice, ethUsdt)
         else -GasCostUsd(gasPrice, ethUsdt)
  {
    var p := TokenPrice(row, v.TokenIn());
    var l := LegsOf(row, v, nU, nC, notional);
    if p > 0.0 {
      LegPricesCompose(row, v, nU, nC, notional);
      assert l.tokenInPrice == p && l.amountIn == notional / p;
      RateClosedForm(l, notional, gasPrice, ethUsdt, RoundTripRate(v, nU, nC));
    }
  }

  /** NetProfitClosedForm with the product of the leg prices named. */
  lemma RateClosedForm(l: Legs, notional: real, gasPrice: int, ethUsdt: real, rate: real)
    requires l.tokenInPrice > 0.0 && l.amountIn == notional / l.tokenInPrice
    requires l.priceIn * l.priceOut == rate
    ensures NetProfit(l, gasPrice, ethUsdt)
            == notional * (rate * Keep(l.feeIn) * Keep(l.feeOut) - 1.0) - GasCostUsd(gasPrice, ethUsdt)
  {
    NetProfitClosedForm(l, notional, gasPrice, ethUsdt);
  }

  /** Inside the band (both ends included) and with a positive Token0
      price, a known label is evaluated with its variant's legs. */
  lemma InBandEvaluates(row: PoolRow, v: Variant, nU: real, nC: real, gasPrice: int, ethUsdt: real, notional: real)
    requires nU > 0.0 && nC > 0.0
    requires 1.0 / 3.0 <= nU / nC <= 3.0
    requires row.token0Price > 0.0
    ensures ProfitFromPrices(row, nU, nC, Label(v), gasPrice, ethUsdt, notional)
            == NetProfit(LegsOf(row, v, nU, nC, notional), gasPrice, ethUsdt)
  {
    LabelContainsToken0(v);
    ParseLabelRoundTrip(v);
  }

  /** The two leg prices multiply to the round-trip rate. */
  lemma LegPricesCompose(row: PoolRow, v: Variant, nU: real, nC: real, notional: real)
    requires nU > 0.0 && nC > 0.0
    ensures var l := LegsOf(row, v, nU, nC, notional);
      l.priceIn * l.priceOut == RoundTripRate(v, nU, nC)
  {
  }

  /** With a positive input price and the notional's worth of input, the
      profit is the notional times the fee-adjusted rate minus one, less
      gas. */
  lemma NetProfitClosedForm(l: Legs, notional: real, gasPrice: int, ethUsdt: real)
    requires l.tokenInPrice > 0.0 && l.amountIn == notional / l.tokenInPrice
    ensures NetProfit(l, gasPrice, ethUsdt)
            == notional * (l.priceIn * l.priceOut * Keep(l.feeIn) * Keep(l.feeOut) - 1.0) - GasCostUsd(gasPrice, ethUsdt)
  {
    RoundTripAlgebra(notional, l.tokenInPrice, l.priceIn, l.priceOut, Keep(l.feeIn), Keep(l.feeOut));
  }

  /** Converting the notional to tokens and the result back to USD cancels
      out. */
  lemma RoundTripAlgebra(notional: real, p: real, priceIn: real, priceOut: real, ki: real, ko: real)
    requires p > 0.0
    ensures ((notional / p) * priceIn * ki * priceOut * ko - notional / p) * p
            == notional * (priceIn * priceOut * ki * ko - 1.0)
  {
    var a := notional / p;
    assert a * p == notional;
    calc {
      (a * priceIn * ki * priceOut * ko - a) * p;
      == (a * p) * (priceIn * priceOut * ki * ko) - a * p;
      == notional * (priceIn * priceOut * ki * ko - 1.0);
    }
  }

  /** Prices 1.02 on Uniswap and 1.00 on Camelot, 0.05% fees on both, a
      100 USD notional and no gas: buying on Uniswap with Token0 clears the
      0.1 USD threshold. */
  lemma UniswapPremiumIsProfitable(row: PoolRow, ethUsdt: real)
    requires row.uniFee == 50 && row.camFee == 50 && row.token0Price > 0.0
    ensures ProfitFromPrices(row, 1.02, 1.0, Label(UniToCam0), 0, ethUsdt, 100.0) > 0.1
  {
    ProfitClosedForm(row, UniToCam0, 1.02, 1.0, 0, ethUsdt, 100.0);
    assert Keep(50) == 0.9995;
  }

  /** A pool with a balance below the floor never passes the filter. */
  lemma ThinPoolRejected(row: PoolRow, pd: PoolData, ethUsdt: real, f: Field)
    requires row.uniPool in pd && f in BalanceFields && f in pd[row.uniPool]
    requires BalanceUsd(row, pd[row.uniPool], f) < MIN_TVL_USD
    ensures !PreFlightCheck(row, pd, ethUsdt)
  {
  }
}
