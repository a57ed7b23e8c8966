/** src/village-wallet.ts: the first version. Coin payments only, at a
    fixed 21000 gas and the node's gas price, with the loose key check and
    the owner check; a merchant address is stored only when it is a valid
    address. `pinToPassphrase` is `CardSecret.Passphrase`. */
module VillageWalletTs {
  import opened Common
  import opened CardSecret
  import opened Gas
  import opened Transfer
  import opened CardPayload
  import opened SimpleSend

  /** The amount, fee and total of a coin payment: `gasCost =
      gasPrice × 21000` and `totalCost = amountWei + gasCost`. */
  datatype Costs = Costs(amountWei: nat, gasCost: nat, totalCost: nat)

  function PaymentCosts(amountWei: nat, gasPrice: nat): (c: Costs)
    ensures c.amountWei == amountWei && c.gasCost == gasPrice * PlainGasLimit
    ensures c.totalCost == c.amountWei + c.gasCost
    ensures c.totalCost >= amountWei && c.totalCost >= c.gasCost
  {
    var gasCost := gasPrice * PlainGasLimit;
    Costs(amountWei, gasCost, amountWei + gasCost)
  }

  /** `sendTransaction`: the loose decryption of `cardData.ekey`, the
      wallet, the owner check, the balance, the amount and the gas price;
      a balance below the total is refused with the shortfall, and the
      request carries exactly the recipient, amount, limit and price.
      `wallet` is the address ethers derives from a key, `None` when it
      refuses the key. */
  function SendTransaction(
    card: Card, pin: string, to: string, amount: string, chain: Chain,
    aes: (string, string) -> Option<string>, wallet: string -> Option<string>, units: Units)
    : (r: Result<Receipt, PayError>)
    ensures r == Err(WrongPin) <==>
      card.ekey.None? || DecryptLoose(aes, card.ekey.value, pin, SerialText(card)).Err?
    ensures r.Ok? ==>
      card.ekey.Some? && var key := DecryptLoose(aes, card.ekey.value, pin, SerialText(card));
      key.Ok? && wallet(key.value).Some? && OwnerCheck(card, wallet(key.value).value).None?
      && var v := units(amount, EtherDecimals);
      v.Some? && chain.gasPrice.Some? && chain.nativeBalance.Some?
      && var c := PaymentCosts(v.value, chain.gasPrice.value);
      c.totalCost <= chain.nativeBalance.value
      && chain.submit(NativeTransfer(wallet(key.value).value, to, v.value, Some(PlainGasLimit), LegacyFee(chain.gasPrice.value)))
        == Some(r.value.hash)
      && r.value.gasCost == c.gasCost
    ensures r.Err? && r.error.InsufficientFunds? ==>
      units(amount, EtherDecimals) == Some(r.error.amount) && chain.nativeBalance == Some(r.error.balance)
      && chain.gasPrice.Some? && r.error.fee == chain.gasPrice.value * PlainGasLimit
      && r.error.balance < r.error.amount + r.error.fee
      && r.error.shortfall == r.error.amount + r.error.fee - r.error.balance
    ensures (card.ekey.Some? && DecryptLoose(aes, card.ekey.value, pin, SerialText(card)).Ok?
        && wallet(DecryptLoose(aes, card.ekey.value, pin, SerialText(card)).value).Some?
        && OwnerCheck(card, wallet(DecryptLoose(aes, card.ekey.value, pin, SerialText(card)).value).value).None?
        && units(amount, EtherDecimals).Some? && chain.gasPrice.Some? && chain.nativeBalance.Some?
        && PaymentCosts(units(amount, EtherDecimals).value, chain.gasPrice.value).totalCost <= chain.nativeBalance.value) ==>
      var from := wallet(DecryptLoose(aes, card.ekey.value, pin, SerialText(card)).value).value;
      var v := units(amount, EtherDecimals).value;
      var sent := chain.submit(NativeTransfer(from, to, v, Some(PlainGasLimit), LegacyFee(chain.gasPrice.value)));
      r == (if sent.Some? then Ok(Receipt(sent.value, PaymentCosts(v, chain.gasPrice.value).gasCost)) else Err(SubmitFailed))
  {
    match card.ekey
    case None => Err(WrongPin)
    case Some(ekey) =>
      match DecryptLoose(aes, ekey, pin, SerialText(card))
      case Err(_) => Err(WrongPin)
      case Ok(key) =>
        match wallet(key)
        case None => Err(KeyRejected)
        case Some(from) =>
          match OwnerCheck(card, from)
          case Some(e) => Err(e)
          case None =>
            match chain.nativeBalance
            case None => Err(BalanceUnavailable)
            case Some(balance) =>
              match units(amount, EtherDecimals)
              case None => Err(AmountUnparsable)
              case Some(amountWei) =>
                match chain.gasPrice
                case None => Err(GasUnavailable)
                case Some(gasPrice) =>
                  var c := PaymentCosts(amountWei, gasPrice);
                  if balance < c.totalCost then Err(ShortOfFunds(balance, c.amountWei, c.gasCost))
                  else
                    match chain.submit(NativeTransfer(from, to, amountWei, Some(PlainGasLimit), LegacyFee(gasPrice)))
                    case None => Err(SubmitFailed)
                    case Some(hash) => Ok(Receipt(hash, c.gasCost))
  }

  /** Once the key is the card's and every answer is in, the payment is
      refused exactly when the balance is below amount plus fee: a balance
      equal to the total goes through to submission. */
  lemma RefusedIff(
    card: Card, pin: string, to: string, amount: string, chain: Chain,
    aes: (string, string) -> Option<string>, wallet: string -> Option<string>, units: Units)
    requires card.ekey.Some? && DecryptLoose(aes, card.ekey.value, pin, SerialText(card)).Ok?
    requires var key := DecryptLoose(aes, card.ekey.value, pin, SerialText(card)).value;
      wallet(key).Some? && OwnerCheck(card, wallet(key).value).None?
    requires units(amount, EtherDecimals).Some? && chain.gasPrice.Some? && chain.nativeBalance.Some?
    ensures var r := SendTransaction(card, pin, to, amount, chain, aes, wallet, units);
      var total := units(amount, EtherDecimals).value + chain.gasPrice.value * 21000;
      (r.Err? && r.error.InsufficientFunds? <==> chain.nativeBalance.value < total)
  {
  }

  /** The settings screen state. */
  class MerchantSettings {
    var merchantAddress: string
    var screen: string

    constructor()
      ensures merchantAddress == "" && screen == "home"
    {
      merchantAddress := "";
      screen := "home";
    }

    /** `saveMerchantAddress`: an address `isAddress` refuses changes
        nothing and gives false; a valid one is stored, the home screen
        shown, and true returned. */
    method SaveMerchantAddress(address: string, isAddress: string -> bool) returns (saved: bool)
      modifies this
      ensures saved == isAddress(address)
      ensures !saved ==> merchantAddress == old(merchantAddress) && screen == old(screen)
      ensures saved ==> merchantAddress == address && screen == "home"
    {
      if !isAddress(address) {
        return false;
      }
      merchantAddress := address;
      screen := "home";
      return true;
    }
  }
}
