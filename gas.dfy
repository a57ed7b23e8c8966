/** `estimateOptimalGas` of v.2.4.16 and v2.4.8 (the two texts are the
    same): a gas limit with a ten per cent safety margin over the node's
    estimate, and a fee strategy chosen in a fixed order. Amounts are wei
    and gas units as naturals; every provider answer is an input, `None`
    when the call throws. */
module Gas {
  import opened Common

  /** Base used when `estimateGas` throws (src/v.2.4.16.tsx:1279-1288). */
  const NativeFallbackGas: nat := 21000
  const TokenFallbackGas: nat := 65000

  datatype Strategy = Legacy | Eip1559

  /** What the block-explorer gas oracle said: no `ProposeGasPrice`, one
      whose gwei average could not be turned into wei (`parseUnits`
      threw), or the average price in wei. */
  datatype OracleQuote = NoQuote | Unparsable | Quote(gasPrice: nat)

  /** `provider.getFeeData()`; a field is present when it is non-null. */
  datatype FeeData = FeeData(maxFeePerGas: Option<nat>, maxPriorityFeePerGas: Option<nat>)

  datatype GasEstimate = GasEstimate(
    gasLimit: nat,
    gasPrice: nat,
    maxFeePerGas: Option<nat>,
    maxPriorityFeePerGas: Option<nat>,
    totalCost: nat,
    strategy: Strategy)

  /** 'Unable to estimate gas fees' */
  datatype GasError = UnableToEstimate

  /** `estimatedGas.mul(110).div(100)`, BigNumber division truncating. */
  function SafeGasLimit(estimated: nat): (limit: nat)
    ensures estimated <= limit
    ensures limit * 100 <= estimated * 110 < (limit + 1) * 100
  {
    estimated * 110 / 100
  }

  /** The estimate the limit is built on: the node's, or the fallback. */
  function BaseGas(estimate: Option<nat>, isTokenTransfer: bool): nat {
    match estimate
    case Some(e) => e
    case None => if isTokenTransfer then TokenFallbackGas else NativeFallbackGas
  }

  /** The fee choice: an oracle quote first, then both fee-market fields
      (charged at `maxFeePerGas`), then the node's legacy gas price. A
      failing `getFeeData` or `getGasPrice` is the one error. */
  function EstimateOptimalGas(
    estimate: Option<nat>, isTokenTransfer: bool,
    oracle: OracleQuote, feeData: Option<FeeData>, nodeGasPrice: Option<nat>)
    : (r: Result<GasEstimate, GasError>)
    ensures r.Ok? ==> r.value.gasLimit == SafeGasLimit(BaseGas(estimate, isTokenTransfer))
    ensures r.Ok? ==> r.value.totalCost == r.value.gasLimit * r.value.gasPrice
    ensures oracle.Quote? ==> r.Ok? && r.value.strategy == Legacy && r.value.gasPrice == oracle.gasPrice
    ensures r.Ok? && r.value.strategy == Eip1559 ==>
      !oracle.Quote? && feeData.Some? && feeData.value.maxFeePerGas == Some(r.value.gasPrice)
      && r.value.maxFeePerGas == feeData.value.maxFeePerGas
      && r.value.maxPriorityFeePerGas == feeData.value.maxPriorityFeePerGas
    ensures !oracle.Quote? && feeData.Some? && feeData.value.maxFeePerGas.Some? && feeData.value.maxPriorityFeePerGas.Some?
      ==> r.Ok? && r.value.strategy == Eip1559
    ensures r.Ok? && r.value.strategy == Legacy && !oracle.Quote? ==>
      nodeGasPrice == Some(r.value.gasPrice) && feeData.Some?
      && (feeData.value.maxFeePerGas.None? || feeData.value.maxPriorityFeePerGas.None?)
    ensures r.Ok? ==> (r.value.strategy == Eip1559 <==> r.value.maxFeePerGas.Some? && r.value.maxPriorityFeePerGas.Some?)
    ensures r.Err? <==>
      !oracle.Quote? && (feeData.None? ||
        ((feeData.value.maxFeePerGas.None? || feeData.value.maxPriorityFeePerGas.None?) && nodeGasPrice.None?))
  {
    var limit := SafeGasLimit(BaseGas(estimate, isTokenTransfer));
    if oracle.Quote? then
      Ok(GasEstimate(limit, oracle.gasPrice, None, None, limit * oracle.gasPrice, Legacy))
    else
      match feeData
      case None => Err(UnableToEstimate)
      case Some(fd) =>
        if fd.maxFeePerGas.Some? && fd.maxPriorityFeePerGas.Some? then
          var maxFee := fd.maxFeePerGas.value;
          Ok(GasEstimate(limit, maxFee, fd.maxFeePerGas, fd.maxPriorityFeePerGas, limit * maxFee, Eip1559))
        else
          match nodeGasPrice
          case None => Err(UnableToEstimate)
          case Some(p) => Ok(GasEstimate(limit, p, None, None, limit * p, Legacy))
  }

  /** When the node cannot estimate, a plain transfer is given 23100 gas
      and a token transfer 71500, whatever the fee strategy. */
  lemma FallbackLimits(oracle: OracleQuote, feeData: Option<FeeData>, nodeGasPrice: Option<nat>)
    ensures var r := EstimateOptimalGas(None, false, oracle, feeData, nodeGasPrice);
      r.Ok? ==> r.value.gasLimit == 23100
    ensures var r := EstimateOptimalGas(None, true, oracle, feeData, nodeGasPrice);
      r.Ok? ==> r.value.gasLimit == 71500
  {
  }

  /** The limit never falls below what the node asked for, and a larger
      estimate never yields a smaller limit. */
  lemma SafeGasLimitMonotone(a: nat, b: nat)
    requires a <= b
    ensures a <= SafeGasLimit(a) <= SafeGasLimit(b)
  {
  }

  /** The fee fields a transaction carries; a fee-market field may be
      `undefined`. */
  datatype FeeFields =
    | LegacyFee(gasPrice: nat)
    | MarketFee(maxFeePerGas: Option<nat>, maxPriorityFeePerGas: Option<nat>)
    | NoFeeFields

  /** `if (strategy === 'eip1559') { maxFeePerGas, maxPriorityFeePerGas }
      else { gasPrice }`, as attached to a transaction or to the options
      of an ERC-20 `transfer`. */
  function TxFeeFields(g: GasEstimate): (f: FeeFields)
    ensures f.MarketFee? <==> g.strategy == Eip1559
    ensures f.LegacyFee? ==> f.gasPrice == g.gasPrice
    ensures f.MarketFee? ==> f.maxFeePerGas == g.maxFeePerGas && f.maxPriorityFeePerGas == g.maxPriorityFeePerGas
  {
    if g.strategy == Eip1559 then MarketFee(g.maxFeePerGas, g.maxPriorityFeePerGas)
    else LegacyFee(g.gasPrice)
  }
}
