/** The payment pipeline shared, word for word, by v.2.4.16
    (`prepareTransaction`) and v2.4.8 (`handleSendPayment`): required
    input, an endpoint, the strict key check, then the amount, the gas
    estimate and the balance checks. */
module Checkout {
  import opened Common
  import opened CardSecret
  import opened Failover
  import opened Gas
  import opened Transfer
  import opened CardPayload

  /** The checks and the transaction of v.2.4.16's `prepareTransaction`
      and v2.4.8's `handleSendPayment`, from the point where the wallet
      exists: the amount, the gas estimate, the balance checks in the
      source's order, then the request with the estimate's gas limit and
      fee fields. */
  function PlanPayment(asset: Asset, amount: string, from: string, to: string, chain: Chain, units: Units)
    : (r: Result<Plan, PayError>)
    ensures r.Ok? ==> r.value.tx.from == from && r.value.tx.gasLimit == Some(r.value.gas.gasLimit)
    ensures r.Err? ==> !(r.error in {MissingInfo, NoProvider, WrongPin})
    ensures r.Ok? && asset.Native? ==>
      var v := units(amount, EtherDecimals);
      var g := EstimateOptimalGas(chain.estimateGas, false, chain.oracle, chain.feeData, chain.gasPrice);
      v.Some? && g.Ok? && chain.nativeBalance.Some?
      && chain.nativeBalance.value >= v.value + g.value.totalCost
      && r.value == Plan(NativeTransfer(from, to, v.value, Some(g.value.gasLimit), TxFeeFields(g.value)), g.value)
    ensures r.Ok? && asset.Token? ==>
      var v := units(amount, asset.decimals);
      var g := EstimateOptimalGas(chain.estimateGas, true, chain.oracle, chain.feeData, chain.gasPrice);
      Truthy(asset.address) && v.Some? && g.Ok?
      && chain.tokenBalance.Some? && chain.tokenBalance.value >= v.value
      && chain.nativeBalance.Some? && chain.nativeBalance.value >= g.value.totalCost
      && r.value == Plan(TokenTransfer(from, asset.address.value, to, v.value, Some(g.value.gasLimit), TxFeeFields(g.value)), g.value)
    ensures r.Err? && r.error.InsufficientFunds? ==>
      asset.Native? && units(amount, EtherDecimals) == Some(r.error.amount)
      && chain.nativeBalance == Some(r.error.balance)
      && r.error.balance < r.error.amount + r.error.fee
      && r.error.shortfall == r.error.amount + r.error.fee - r.error.balance
    ensures r == Err(TokenNotSupported) <==> asset.Token? && !Truthy(asset.address)
    ensures r.Err? && r.error.InsufficientTokenBalance? ==>
      asset.Token? && Truthy(asset.address) && units(amount, asset.decimals) == Some(r.error.amount)
      && chain.tokenBalance == Some(r.error.tokenBalance) && r.error.tokenBalance < r.error.amount
    ensures r.Err? && r.error.InsufficientGas? ==>
      asset.Token? && Truthy(asset.address) && units(amount, asset.decimals).Some?
      && chain.tokenBalance.Some? && chain.tokenBalance.value >= units(amount, asset.decimals).value
      && chain.nativeBalance == Some(r.error.gasBalance) && r.error.gasBalance < r.error.fee
  {
    match asset
    case Native =>
      (match units(amount, EtherDecimals)
      case None => Err(AmountUnparsable)
      case Some(value) =>
        (match EstimateOptimalGas(chain.estimateGas, false, chain.oracle, chain.feeData, chain.gasPrice)
         case Err(_) => Err(GasUnavailable)
         case Ok(g) =>
           match chain.nativeBalance
           case None => Err(BalanceUnavailable)
           case Some(balance) =>
             var totalNeeded := value + g.totalCost;
             if balance < totalNeeded then
               Err(InsufficientFunds(balance, value, g.totalCost, totalNeeded - balance))
             else
               Ok(Plan(NativeTransfer(from, to, value, Some(g.gasLimit), TxFeeFields(g)), g))))
    case Token(address, decimals) =>
      if !Truthy(address) then Err(TokenNotSupported)
      else
        match units(amount, decimals)
        case None => Err(AmountUnparsable)
        case Some(value) =>
          match chain.tokenBalance
          case None => Err(BalanceUnavailable)
          case Some(tokenBalance) =>
            if tokenBalance < value then Err(InsufficientTokenBalance(tokenBalance, value))
            else
              match EstimateOptimalGas(chain.estimateGas, true, chain.oracle, chain.feeData, chain.gasPrice)
              case Err(_) => Err(GasUnavailable)
              case Ok(g) =>
                match chain.nativeBalance
                case None => Err(BalanceUnavailable)
                case Some(gasBalance) =>
                  if gasBalance < g.totalCost then Err(InsufficientGas(gasBalance, g.totalCost))
                  else Ok(Plan(TokenTransfer(from, address.value, to, value, Some(g.gasLimit), TxFeeFields(g)), g))
  }

  /** Once amount, estimate and balance are known, a coin payment is
      refused exactly when the balance is below amount plus fee: a balance
      equal to the sum goes through. */
  lemma NativeRefusedIff(amount: string, from: string, to: string, chain: Chain, units: Units)
    requires units(amount, EtherDecimals).Some? && chain.nativeBalance.Some?
    requires EstimateOptimalGas(chain.estimateGas, false, chain.oracle, chain.feeData, chain.gasPrice).Ok?
    ensures var fee := EstimateOptimalGas(chain.estimateGas, false, chain.oracle, chain.feeData, chain.gasPrice).value.totalCost;
      PlanPayment(Native, amount, from, to, chain, units).Ok?
      <==> chain.nativeBalance.value >= units(amount, EtherDecimals).value + fee
  {
  }

  /** A token payment is refused for its token balance before any gas is
      estimated: with too few tokens the answer is the token shortfall,
      whatever the estimate and the coin balance. */
  lemma TokenBalanceCheckedFirst(address: string, decimals: nat, amount: string, from: string, to: string, chain: Chain, units: Units)
    requires address != ""
    requires units(amount, decimals).Some? && chain.tokenBalance.Some?
    requires chain.tokenBalance.value < units(amount, decimals).value
    ensures PlanPayment(Token(Some(address), decimals), amount, from, to, chain, units)
      == Err(InsufficientTokenBalance(chain.tokenBalance.value, units(amount, decimals).value))
  {
  }

  /** The request carries the fee-market fields exactly when the estimate
      chose EIP-1559, and the gas price otherwise. */
  lemma PlanFeeFields(asset: Asset, amount: string, from: string, to: string, chain: Chain, units: Units)
    requires PlanPayment(asset, amount, from, to, chain, units).Ok?
    ensures var p := PlanPayment(asset, amount, from, to, chain, units).value;
      (p.tx.fees.MarketFee? <==> p.gas.strategy == Eip1559)
      && (p.tx.fees.LegacyFee? ==> p.tx.fees.gasPrice == p.gas.gasPrice)
      && (p.tx.fees.MarketFee? ==> p.tx.fees.maxFeePerGas.Some? && p.tx.fees.maxPriorityFeePerGas.Some?)
      && p.tx.gasLimit == Some(p.gas.gasLimit)
  {
  }

  /** The strict decryption of the card's ciphertext; an absent ciphertext
      makes CryptoJS throw, which is reported as a wrong PIN. */
  function DecryptCard(aes: (string, string) -> Option<string>, card: Card, pin: string): (r: Result<string, DecryptError>)
    ensures r.Ok? ==> IsStrictKey(r.value) && CipherText(card).Some?
    ensures r.Ok? ==> aes(CipherText(card).value, Passphrase(SerialText(card), pin)) in {Some(r.value), Some(r.value[2..])}
    ensures r.Err? ==> r.error == DecryptError.InvalidPin
  {
    match CipherText(card)
    case None => Err(DecryptError.InvalidPin)
    case Some(cipher) => DecryptStrict(aes, cipher, pin, SerialText(card))
  }

  /** A prepared payment: the key it will be signed with and the plan. */
  datatype Prepared = Prepared(key: string, plan: Plan)

  /** What v.2.4.16's `prepareTransaction` and v2.4.8's
      `handleSendPayment` decide before anything is sent: missing input,
      no endpoint, a wrong PIN, or the plan of `PlanPayment` for the
      wallet of the decrypted key. */
  function CheckPayment(
    card: Option<Card>, pin: string, amount: string, asset: Asset, to: string,
    endpoints: seq<Option<string>>, chain: Chain,
    aes: (string, string) -> Option<string>, derive: string -> string, units: Units)
    : (r: Result<Prepared, PayError>)
    ensures r == Err(MissingInfo) <==> card.None? || pin == "" || amount == ""
    ensures r == Err(NoProvider) <==>
      card.Some? && pin != "" && amount != "" && FirstResponder(Configured(endpoints), chain.up).None?
    ensures r.Ok? ==>
      FirstResponder(Configured(endpoints), chain.up).Some?
      && DecryptCard(aes, card.value, pin) == Ok(r.value.key)
      && IsStrictKey(r.value.key)
      && PlanPayment(asset, amount, derive(r.value.key), to, chain, units) == Ok(r.value.plan)
      && r.value.plan.tx.from == derive(r.value.key)
    ensures r == Err(WrongPin) <==>
      card.Some? && pin != "" && amount != "" && FirstResponder(Configured(endpoints), chain.up).Some?
      && DecryptCard(aes, card.value, pin).Err?
    ensures (card.Some? && pin != "" && amount != "" && FirstResponder(Configured(endpoints), chain.up).Some?
        && DecryptCard(aes, card.value, pin).Ok?) ==>
      var key := DecryptCard(aes, card.value, pin).value;
      var plan := PlanPayment(asset, amount, derive(key), to, chain, units);
      (plan.Ok? ==> r == Ok(Prepared(key, plan.value))) && (plan.Err? ==> r == Err(plan.error))
  {
    if card.None? || pin == "" || amount == "" then Err(MissingInfo)
    else if FirstResponder(Configured(endpoints), chain.up).None? then Err(NoProvider)
    else
      match DecryptCard(aes, card.value, pin)
      case Err(_) => Err(WrongPin)
      case Ok(key) =>
        match PlanPayment(asset, amount, derive(key), to, chain, units)
        case Err(e) => Err(e)
        case Ok(plan) => Ok(Prepared(key, plan))
  }

  /** `if (!cardData.addr) cardData.addr = wallet.address` */
  function FilledCard(card: Card, wallet: string): (c: Card)
    ensures Truthy(card.addr) ==> c == card
    ensures !Truthy(card.addr) ==> c == card.(addr := Some(wallet))
  {
    if Truthy(card.addr) then card else card.(addr := Some(wallet))
  }
}
