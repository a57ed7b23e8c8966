/** What a payment sends and what the chain answers. The wallet's
    provider, its balance queries, the ERC-20 contract (`balanceOf` and
    `transfer` of EIP-20), gas estimation and submission are inputs; an
    answer of `None` means the call threw. Amounts are wei (or the token's
    smallest unit) as naturals. */
module Transfer {
  import opened Common
  import opened Gas

  /** The selected currency: the network's own coin, or a token whose
      contract address on this network may be missing. */
  datatype Asset = Native | Token(address: Option<string>, decimals: nat)

  /** A transaction as handed to `wallet.sendTransaction` or to the token
      contract's `transfer`. An unset `gasLimit` leaves it to the library. */
  datatype TxRequest =
    | NativeTransfer(from: string, to: string, value: nat, gasLimit: Option<nat>, fees: FeeFields)
    | TokenTransfer(from: string, token: string, to: string, value: nat, gasLimit: Option<nat>, fees: FeeFields)

  /** The answers of the network for one payment. `up` says which RPC
      endpoints answer; `submit` is the send followed by `wait()`, giving
      the transaction hash or `None` when it throws or reverts. */
  datatype Chain = Chain(
    up: string -> bool,
    nativeBalance: Option<nat>,
    tokenBalance: Option<nat>,
    estimateGas: Option<nat>,
    oracle: OracleQuote,
    feeData: Option<FeeData>,
    gasPrice: Option<nat>,
    submit: TxRequest -> Option<string>)

  /** `parseUnits(amount, decimals)`, `None` when it throws;
      `parseEther(amount)` is `parseUnits(amount, 18)`. */
  type Units = (string, nat) -> Option<nat>
  const EtherDecimals: nat := 18

  /** Why a payment did not go out. */
  datatype PayError =
    | MissingInfo
    | NoProvider
    | WrongPin
    | DecryptThrew
    | KeyRejected
    | AddressMismatch
    | NoCardAddress
    | AmountUnparsable
    | BalanceUnavailable
    | GasUnavailable
    | TokenNotSupported
    | InsufficientFunds(balance: nat, amount: nat, fee: nat, shortfall: nat)
    | InsufficientTokenBalance(tokenBalance: nat, amount: nat)
    | InsufficientGas(gasBalance: nat, fee: nat)
    | SubmitFailed
    | NoPendingTransaction

  /** A transfer ready to be sent, with the gas estimate behind it. */
  datatype Plan = Plan(tx: TxRequest, gas: GasEstimate)
}
