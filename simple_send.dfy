/** The payment checks of the older versions (v2.2.0, v2.4.0,
    village-wallet-1, village-wallet.ts), which price gas at the node's
    legacy gas price without a fee strategy. The ERC-20 branch is the same
    text in v2.2.0 and v2.4.0; village-wallet-1 differs only in asking for
    the token balance before parsing the amount. */
module SimpleSend {
  import opened Common
  import opened Gas
  import opened Transfer
  import opened CardPayload

  /** The gas limit of a plain coin transfer. */
  const PlainGasLimit: nat := 21000

  /** A request ready to submit and the fee it was checked against. */
  datatype Send = Send(tx: TxRequest, gasCost: nat)

  /** What a sent payment reports: the transaction hash and the fee. */
  datatype Receipt = Receipt(hash: string, gasCost: nat)

  /** `wallet.address.toLowerCase() !== cardData.addr.toLowerCase()` of
      village-wallet-1 and village-wallet.ts: the key must belong to the
      card, letter case aside. A card without an address makes the
      comparison throw. */
  function OwnerCheck(card: Card, wallet: string): (e: Option<PayError>)
    ensures e.None? <==> card.addr.Some? && ToLower(wallet) == ToLower(card.addr.value)
    ensures e.Some? ==> e.value in {NoCardAddress, AddressMismatch}
    ensures e == Some(NoCardAddress) <==> card.addr.None?
  {
    match card.addr
    case None => Some(NoCardAddress)
    case Some(addr) => if ToLower(wallet) != ToLower(addr) then Some(AddressMismatch) else None
  }

  /** The refusal of a coin payment, with the amount missing. */
  function ShortOfFunds(balance: nat, value: nat, fee: nat): (e: PayError)
    requires balance < value + fee
    ensures e.InsufficientFunds? && e.balance + e.shortfall == e.amount + e.fee
    ensures e.balance == balance && e.amount == value && e.fee == fee && e.shortfall > 0
  {
    InsufficientFunds(balance, value, fee, value + fee - balance)
  }

  /** The ERC-20 branch: an unsupported token, then the token balance
      against the amount, then the coin balance against the gas fee
      (estimate times the node's gas price). `amountFirst` is true where
      the amount is parsed before the token balance is asked for. The
      token `transfer` carries no gas options. */
  function TokenSend(
    address: Option<string>, decimals: nat, amount: string, from: string, to: string,
    chain: Chain, units: Units, amountFirst: bool)
    : (r: Result<Send, PayError>)
    ensures r == Err(TokenNotSupported) <==> !Truthy(address)
    ensures r.Ok? ==>
      var v := units(amount, decimals);
      Truthy(address) && v.Some?
      && chain.tokenBalance.Some? && v.value <= chain.tokenBalance.value
      && chain.estimateGas.Some? && chain.gasPrice.Some?
      && r.value.gasCost == chain.gasPrice.value * chain.estimateGas.value
      && chain.nativeBalance.Some? && r.value.gasCost <= chain.nativeBalance.value
      && r.value.tx == TokenTransfer(from, address.value, to, v.value, None, NoFeeFields)
    ensures r.Err? && r.error.InsufficientTokenBalance? ==>
      Truthy(address) && units(amount, decimals) == Some(r.error.amount)
      && chain.tokenBalance == Some(r.error.tokenBalance) && r.error.tokenBalance < r.error.amount
    ensures r.Err? && r.error.InsufficientGas? ==>
      Truthy(address) && units(amount, decimals).Some? && chain.tokenBalance.Some?
      && units(amount, decimals).value <= chain.tokenBalance.value
      && chain.nativeBalance == Some(r.error.gasBalance)
      && chain.estimateGas.Some? && chain.gasPrice.Some?
      && r.error.fee == chain.gasPrice.value * chain.estimateGas.value
      && r.error.gasBalance < r.error.fee
    ensures r.Err? ==> !r.error.InsufficientFunds? && !(r.error in {KeyRejected, MissingInfo, NoProvider, WrongPin})
  {
    if !Truthy(address) then Err(TokenNotSupported)
    else if !amountFirst && chain.tokenBalance.None? then Err(BalanceUnavailable)
    else
      match units(amount, decimals)
      case None => Err(AmountUnparsable)
      case Some(value) =>
        match chain.tokenBalance
        case None => Err(BalanceUnavailable)
        case Some(tokenBalance) =>
          if tokenBalance < value then Err(InsufficientTokenBalance(tokenBalance, value))
          else
            match chain.nativeBalance
            case None => Err(BalanceUnavailable)
            case Some(gasBalance) =>
              match chain.estimateGas
              case None => Err(GasUnavailable)
              case Some(gasEstimate) =>
                match chain.gasPrice
                case None => Err(GasUnavailable)
                case Some(gasPrice) =>
                  var gasCost := gasPrice * gasEstimate;
                  if gasBalance < gasCost then Err(InsufficientGas(gasBalance, gasCost))
                  else Ok(Send(TokenTransfer(from, address.value, to, value, None, NoFeeFields), gasCost))
  }

  /** With every answer in, a token payment goes out exactly when the
      token balance covers the amount and the coin balance covers the gas
      fee; the token shortfall is reported whatever the gas situation. */
  lemma TokenSendIff(
    address: string, decimals: nat, amount: string, from: string, to: string,
    chain: Chain, units: Units, amountFirst: bool)
    requires address != "" && units(amount, decimals).Some?
    requires chain.tokenBalance.Some? && chain.nativeBalance.Some?
    requires chain.estimateGas.Some? && chain.gasPrice.Some?
    ensures var r := TokenSend(Some(address), decimals, amount, from, to, chain, units, amountFirst);
      var v := units(amount, decimals).value;
      var fee := chain.gasPrice.value * chain.estimateGas.value;
      (r.Ok? <==> v <= chain.tokenBalance.value && fee <= chain.nativeBalance.value)
      && (chain.tokenBalance.value < v ==> r == Err(InsufficientTokenBalance(chain.tokenBalance.value, v)))
      && (v <= chain.tokenBalance.value && chain.nativeBalance.value < fee ==>
            r == Err(InsufficientGas(chain.nativeBalance.value, fee)))
  {
  }

  /** The order of the two first questions only matters for which failure
      is reported: both orders send the same request. */
  lemma TokenSendOrderIrrelevant(
    address: Option<string>, decimals: nat, amount: string, from: string, to: string,
    chain: Chain, units: Units)
    requires TokenSend(address, decimals, amount, from, to, chain, units, true).Ok?
    ensures TokenSend(address, decimals, amount, from, to, chain, units, false)
      == TokenSend(address, decimals, amount, from, to, chain, units, true)
  {
  }
}
