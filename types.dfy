/** Shared vocabulary of the arbitrage bot: pool rows, pool keys, the
    per-pool readings returned by the batched read, the four swap variants
    and their textual labels, and a few string and number helpers. */
module Types {

  datatype Option<T> = None | Some(value: T)

  /** A contract or token address, as a (checksummed) hex string. */
  type Address = string

  /** Block numbers are never negative. */
  type Block = nat

  /** The circuit-breaker key: the pair (Uniswap pool, Camelot pool). */
  datatype PoolKey = PoolKey(uni: Address, cam: Address)

  /** One row of the pool list: both pools, both tokens with their
      decimals and USD reference prices, and both venue fees (in units of
      1/100000). */
  datatype PoolRow = PoolRow(
    uniPool: Address, camPool: Address,
    token0Id: Address, token1Id: Address,
    token0Symbol: string, token1Symbol: string,
    token0Decimals: int, token1Decimals: int,
    token0Price: real, token1Price: real,
    uniFee: int, camFee: int)

  function KeyOf(row: PoolRow): PoolKey {
    PoolKey(row.uniPool, row.camPool)
  }

  /** The six named slots of one pool's reading, in batch order. */
  datatype Field =
    | UniswapPrice | CamelotPrice
    | Token0BalanceUni | Token1BalanceUni
    | Token0BalanceCam | Token1BalanceCam

  /** The slot a field occupies inside its pool's group of six. */
  function SlotOf(f: Field): (j: nat)
    ensures j < 6
  {
    match f
    case UniswapPrice => 0
    case CamelotPrice => 1
    case Token0BalanceUni => 2
    case Token1BalanceUni => 3
    case Token0BalanceCam => 4
    case Token1BalanceCam => 5
  }

  /** The field stored from slot j of a group of six; inverse of SlotOf. */
  function FieldAt(j: nat): (f: Field)
    requires j < 6
    ensures SlotOf(f) == j
  {
    if j == 0 then UniswapPrice
    else if j == 1 then CamelotPrice
    else if j == 2 then Token0BalanceUni
    else if j == 3 then Token1BalanceUni
    else if j == 4 then Token0BalanceCam
    else Token1BalanceCam
  }

  /** A decoded reading of one pool pair, keyed by field name. */
  type Reading = map<Field, int>

  /** Readings keyed by Uniswap pool address. */
  type PoolData = map<Address, Reading>

  datatype Venue = Uniswap | Camelot
  datatype Side = Token0 | Token1

  function Other(s: Side): Side {
    if s == Token0 then Token1 else Token0
  }

  /** The four directional swap variants: which venue is swapped on first,
      and which token goes in. */
  datatype Variant = UniToCam0 | UniToCam1 | CamToUni0 | CamToUni1 {

    function First(): Venue {
      if this == UniToCam0 || this == UniToCam1 then Uniswap else Camelot
    }

    function TokenIn(): Side {
      if this == UniToCam0 || this == CamToUni0 then Token0 else Token1
    }
  }

  /** The variants in the order the scanner evaluates them. */
  const AllVariants: seq<Variant> := [UniToCam0, UniToCam1, CamToUni0, CamToUni1]

  lemma AllVariantsComplete(v: Variant)
    ensures v in AllVariants
  {
  }

  /** The textual label the bot uses for each variant, such as
      "Uniswap → Camelot (Token0 → Token1)": the venues in swap order, then
      the tokens in swap order. */
  function Label(v: Variant): string {
    Route(v.First()) + " (" + Pair(v.TokenIn()) + ")"
  }

  function Route(first: Venue): string {
    if first == Uniswap then "Uniswap → Camelot" else "Camelot → Uniswap"
  }

  function Pair(tokenIn: Side): string {
    if tokenIn == Token0 then "Token0 → Token1" else "Token1 → Token0"
  }

  /** Recognises one of the four labels; any other string is unknown. */
  function ParseLabel(s: string): (r: Option<Variant>)
    ensures r.Some? ==> Label(r.value) == s
    ensures r.None? ==> forall v: Variant :: Label(v) != s
  {
    if s == Label(UniToCam0) then Some(UniToCam0)
    else if s == Label(UniToCam1) then Some(UniToCam1)
    else if s == Label(CamToUni0) then Some(CamToUni0)
    else if s == Label(CamToUni1) then Some(CamToUni1)
    else None
  }

  /** Every label is recognised as the variant it names. */
  lemma ParseLabelRoundTrip(v: Variant)
    ensures ParseLabel(Label(v)) == Some(v)
  {
    forall w: Variant | w != v
      ensures Label(w) != Label(v)
    {
      LabelMarks(v);
      LabelMarks(w);
    }
  }

  /** The first character of a label names the first venue and the 25th
      the input token. */
  lemma LabelMarks(v: Variant)
    ensures Label(v)[0] == (if v.First() == Uniswap then 'U' else 'C')
    ensures Label(v)[24] == (if v.TokenIn() == Token0 then '0' else '1')
  {
    var r, p := Route(v.First()), Pair(v.TokenIn());
    assert |r| == 17 && |p| == 15;
    assert Label(v)[0] == r[0];
    assert Label(v)[24] == p[5];
  }

  predicate OccursAt(s: string, t: string, i: int) {
    0 <= i <= |s| - |t| && s[i..i + |t|] == t
  }

  /** Python's substring test `t in s`. */
  predicate Contains(s: string, t: string) {
    exists i :: 0 <= i <= |s| - |t| && OccursAt(s, t, i)
  }

  /** Every label contains the text "Token0" (as input or as output). */
  lemma LabelContainsToken0(v: Variant)
    ensures Contains(Label(v), "Token0")
  {
    var j := if v.TokenIn() == Token0 then 0 else 9;
    assert Pair(v.TokenIn())[j..j + 6] == "Token0";
    OccursWithin(Route(v.First()) + " (", Pair(v.TokenIn()), ")", "Token0", j);
  }

  /** An occurrence inside the middle part of a concatenation. */
  lemma OccursWithin(a: string, p: string, b: string, t: string, j: int)
    requires 0 <= j <= |p| - |t| && p[j..j + |t|] == t
    ensures OccursAt(a + p + b, t, |a| + j)
  {
    assert (a + p + b)[|a| + j..|a| + j + |t|] == p[j..j + |t|];
  }

  function LowerChar(c: char): char {
    if 'A' <= c <= 'Z' then (c as int + 32) as char else c
  }

  /** ASCII lower-casing, enough for hex addresses. */
  function Lower(s: string): (r: string)
    ensures |r| == |s|
    ensures forall i :: 0 <= i < |s| ==> r[i] == LowerChar(s[i])
  {
    seq(|s|, i requires 0 <= i < |s| => LowerChar(s[i]))
  }

  /** 10 raised to an integer power, negative exponents giving fractions,
      as Python's `10 ** e` does for an int exponent. */
  function Pow10(e: int): (r: real)
    ensures r > 0.0
    decreases if e >= 0 then e else -e
  {
    if e == 0 then 1.0
    else if e > 0 then 10.0 * Pow10(e - 1)
    else Pow10(e + 1) / 10.0
  }

  /** Python's int() on a real: truncation toward zero. */
  function Trunc(x: real): (n: int)
    ensures x >= 0.0 ==> n as real <= x < n as real + 1.0
    ensures x < 0.0 ==> n as real - 1.0 < x <= n as real
  {
    if x >= 0.0 then x.Floor else -((-x).Floor)
  }
}
