/** src/village-wallet-1.tsx: the loose key check, a provider installed
    by a four-slot search when the app starts or the network changes, names
    resolved through ENS, and payments checked against the card's own
    address. `pinToPassphrase` is `CardSecret.Passphrase`. */
module VillageWallet1 {
  import opened Common
  import opened CardSecret
  import opened Failover
  import opened Gas
  import opened Transfer
  import opened CardPayload
  import opened SimpleSend

  // ---------------------------------------------------------------------
  // The provider search of updateProvider and initializeApp
  // ---------------------------------------------------------------------

  /** The app's connection state. */
  class Connection {
    var provider: Option<string>
    var connected: bool
    var nfcEnabled: bool

    constructor()
      ensures provider.None? && !connected && !nfcEnabled
    {
      provider := None;
      connected := false;
      nfcEnabled := false;
    }

    /** The loop shared by both callers: each configured endpoint in turn
        becomes the provider and is asked for a block number, stopping at
        the first answer. The last one tried stays installed even when
        none answered. */
    method SearchProvider(slots: seq<Option<string>>, up: string -> bool)
      modifies this
      ensures var rpcs := Configured(slots);
        connected == FirstResponder(rpcs, up).Some?
        && (connected ==> provider == Some(rpcs[FirstResponder(rpcs, up).value]))
        && (!connected && |rpcs| > 0 ==> provider == Some(rpcs[|rpcs| - 1]))
        && (|rpcs| == 0 ==> provider == old(provider))
      ensures nfcEnabled == old(nfcEnabled)
    {
      var rpcs := Configured(slots);
      var tried: Option<string> := None;
      var found := false;
      var k := 0;
      while k < |rpcs|
        invariant 0 <= k <= |rpcs|
        invariant !found
        invariant forall j :: 0 <= j < k ==> !up(rpcs[j])
        invariant k == 0 <==> tried.None?
        invariant k > 0 ==> tried == Some(rpcs[k - 1])
      {
        tried := Some(rpcs[k]);
        if up(rpcs[k]) {
          found := true;
          break;
        }
        k := k + 1;
      }
      if found {
        FirstResponderUnique(rpcs, up, k);
      }
      connected := found;
      if tried.Some? {
        provider := tried;
      }
    }

    /** `updateProvider`: nothing happens without a selected network; an
        unknown network (`None`) makes the lookup throw, which leaves the
        app disconnected with its provider. */
    method UpdateProvider(selected: string, slots: Option<seq<Option<string>>>, up: string -> bool)
      modifies this
      ensures selected == "" ==> provider == old(provider) && connected == old(connected)
      ensures selected != "" && slots.None? ==> provider == old(provider) && !connected
      ensures selected != "" && slots.Some? ==>
        var rpcs := Configured(slots.value);
        connected == FirstResponder(rpcs, up).Some?
        && (connected ==> provider == Some(rpcs[FirstResponder(rpcs, up).value]))
        && (!connected && |rpcs| > 0 ==> provider == Some(rpcs[|rpcs| - 1]))
        && (|rpcs| == 0 ==> provider == old(provider))
      ensures nfcEnabled == old(nfcEnabled)
    {
      if selected == "" {
        return;
      }
      if slots.None? {
        connected := false;
        return;
      }
      SearchProvider(slots.value, up);
    }

    /** `initializeApp`: the search over polygon's endpoints, then NFC.
        `nfc` is `Some(supported)` when `isSupported` (and, if supported,
        `start`) returned, `None` when either threw. */
    method InitializeApp(slots: seq<Option<string>>, up: string -> bool, nfc: Option<bool>)
      modifies this
      ensures var rpcs := Configured(slots);
        connected == FirstResponder(rpcs, up).Some?
        && (connected ==> provider == Some(rpcs[FirstResponder(rpcs, up).value]))
        && (!connected && |rpcs| > 0 ==> provider == Some(rpcs[|rpcs| - 1]))
        && (|rpcs| == 0 ==> provider == old(provider))
      ensures nfc == Some(true) ==> nfcEnabled
      ensures nfc == Some(false) ==> nfcEnabled == old(nfcEnabled)
      ensures nfc.None? ==> !nfcEnabled
    {
      SearchProvider(slots, up);
      match nfc
      case Some(supported) =>
        if supported {
          nfcEnabled := true;
        }
      case None =>
        nfcEnabled := false;
    }
  }

  // ---------------------------------------------------------------------
  // getTokenBalance
  // ---------------------------------------------------------------------

  /** The balance as shown: a formatted amount with its decimals, or the
      text '0.00'. */
  datatype Shown = Formatted(amount: nat, decimals: nat) | ZeroText

  /** `getTokenBalance`: the coin or token balance, and '0.00' when the
      token has no address on this network or the lookup throws. */
  function GetTokenBalance(asset: Asset, chain: Chain): (r: Shown)
    ensures asset.Native? ==>
      (r == ZeroText <==> chain.nativeBalance.None?)
      && (r.Formatted? ==> r == Formatted(chain.nativeBalance.value, EtherDecimals))
    ensures asset.Token? ==>
      (r == ZeroText <==> !Truthy(asset.address) || chain.tokenBalance.None?)
      && (r.Formatted? ==> r == Formatted(chain.tokenBalance.value, asset.decimals))
  {
    match asset
    case Native =>
      if chain.nativeBalance.Some? then Formatted(chain.nativeBalance.value, EtherDecimals) else ZeroText
    case Token(address, decimals) =>
      if !Truthy(address) then ZeroText
      else if chain.tokenBalance.Some? then Formatted(chain.tokenBalance.value, decimals)
      else ZeroText
  }

  // ---------------------------------------------------------------------
  // resolveNameOrAddress
  // ---------------------------------------------------------------------

  datatype ResolveError = Unresolved | InvalidFormat

  /** `resolveNameOrAddress`: an address stands for itself; a name
      containing '.eth' becomes the address ENS gives it and is kept for
      display; anything else is refused. `isAddress` is
      `ethers.utils.isAddress`; `resolveName` is the ENS lookup, `None`
      when it throws. */
  function ResolveNameOrAddress(input: string, isAddress: string -> bool, resolveName: string -> Option<Option<string>>)
    : (r: Result<(string, string), ResolveError>)
    ensures r.Ok? ==> r.value.1 == input
    ensures isAddress(input) ==> r == Ok((input, input))
    ensures !isAddress(input) && r.Ok? ==>
      Contains(input, ".eth") && resolveName(input).Some? && resolveName(input).value == Some(r.value.0) && r.value.0 != ""
    ensures r == Err(InvalidFormat) <==> !isAddress(input) && !Contains(input, ".eth")
    ensures r == Err(Unresolved) <==>
      !isAddress(input) && Contains(input, ".eth") && (resolveName(input).None? || !Truthy(resolveName(input).value))
  {
    if isAddress(input) then Ok((input, input))
    else if Contains(input, ".eth") then
      match resolveName(input)
      case None => Err(Unresolved)
      case Some(resolved) =>
        if !Truthy(resolved) then Err(Unresolved) else Ok((resolved.value, input))
    else Err(InvalidFormat)
  }

  /** A name that resolves to an address is accepted for that address
      and shown as the name; a second lookup of the result is an address
      standing for itself. */
  lemma ResolveThenAddress(input: string, isAddress: string -> bool, resolveName: string -> Option<Option<string>>)
    requires ResolveNameOrAddress(input, isAddress, resolveName).Ok?
    requires isAddress(ResolveNameOrAddress(input, isAddress, resolveName).value.0)
    ensures var a := ResolveNameOrAddress(input, isAddress, resolveName).value.0;
      ResolveNameOrAddress(a, isAddress, resolveName) == Ok((a, a))
  {
  }

  // ---------------------------------------------------------------------
  // sendTransaction, sendNativeToken, sendERC20Token
  // ---------------------------------------------------------------------

  /** `sendNativeToken`: the balance, the amount, the node's gas price, a
      fee of 21000 gas at that price; the request carries the limit but no
      gas price, which ethers then fills in. */
  function NativeSend(amount: string, from: string, to: string, chain: Chain, units: Units)
    : (r: Result<Send, PayError>)
    ensures r.Ok? ==>
      var v := units(amount, EtherDecimals);
      v.Some? && chain.gasPrice.Some? && chain.nativeBalance.Some?
      && r.value.gasCost == chain.gasPrice.value * PlainGasLimit
      && v.value + r.value.gasCost <= chain.nativeBalance.value
      && r.value.tx == NativeTransfer(from, to, v.value, Some(PlainGasLimit), NoFeeFields)
    ensures r.Err? && r.error.InsufficientFunds? ==>
      units(amount, EtherDecimals) == Some(r.error.amount) && chain.nativeBalance == Some(r.error.balance)
      && chain.gasPrice.Some? && r.error.fee == chain.gasPrice.value * PlainGasLimit
      && r.error.balance < r.error.amount + r.error.fee
  {
    match chain.nativeBalance
    case None => Err(BalanceUnavailable)
    case Some(balance) =>
      match units(amount, EtherDecimals)
      case None => Err(AmountUnparsable)
      case Some(amountWei) =>
        match chain.gasPrice
        case None => Err(GasUnavailable)
        case Some(gasPrice) =>
          var gasCost := gasPrice * PlainGasLimit;
          if balance < amountWei + gasCost then Err(ShortOfFunds(balance, amountWei, gasCost))
          else Ok(Send(NativeTransfer(from, to, amountWei, Some(PlainGasLimit), NoFeeFields), gasCost))
  }

  /** With every answer in, a coin payment goes out exactly when the
      balance covers amount plus 21000 gas at the node's price. */
  lemma NativeSendIff(amount: string, from: string, to: string, chain: Chain, units: Units)
    requires units(amount, EtherDecimals).Some? && chain.gasPrice.Some? && chain.nativeBalance.Some?
    ensures NativeSend(amount, from, to, chain, units).Ok? <==>
      chain.nativeBalance.value >= units(amount, EtherDecimals).value + chain.gasPrice.value * 21000
  {
  }

  /** The branch for the selected currency; the token branch asks for
      the token balance before parsing the amount. */
  function Payment(asset: Asset, amount: string, from: string, to: string, chain: Chain, units: Units)
    : Result<Send, PayError>
  {
    match asset
    case Native => NativeSend(amount, from, to, chain, units)
    case Token(address, decimals) => TokenSend(address, decimals, amount, from, to, chain, units, false)
  }

  /** `sendTransaction`: the loose decryption of `cardData.ekey` (any
      failure, an absent ciphertext included, is the one wrong-PIN error),
      the wallet, the owner check, then the branch and the submission.
      `wallet` is the address ethers derives from a key, `None` when it
      refuses the key. */
  function SendTransaction(
    card: Card, pin: string, to: string, amount: string, asset: Asset, chain: Chain,
    aes: (string, string) -> Option<string>, wallet: string -> Option<string>, units: Units)
    : (r: Result<Receipt, PayError>)
    ensures r == Err(WrongPin) <==>
      card.ekey.None? || DecryptLoose(aes, card.ekey.value, pin, SerialText(card)).Err?
    ensures r.Ok? ==>
      card.ekey.Some? && var key := DecryptLoose(aes, card.ekey.value, pin, SerialText(card));
      key.Ok? && StartsWith(key.value, "0x") && |key.value| >= 60
      && wallet(key.value).Some? && card.addr.Some?
      && ToLower(wallet(key.value).value) == ToLower(card.addr.value)
      && var send := Payment(asset, amount, wallet(key.value).value, to, chain, units);
      send.Ok? && chain.submit(send.value.tx) == Some(r.value.hash) && r.value.gasCost == send.value.gasCost
    ensures card.ekey.Some? && DecryptLoose(aes, card.ekey.value, pin, SerialText(card)).Ok?
      && wallet(DecryptLoose(aes, card.ekey.value, pin, SerialText(card)).value).Some?
      && OwnerCheck(card, wallet(DecryptLoose(aes, card.ekey.value, pin, SerialText(card)).value).value).Some?
      ==> r == Err(OwnerCheck(card, wallet(DecryptLoose(aes, card.ekey.value, pin, SerialText(card)).value).value).value)
    ensures (card.ekey.Some? && DecryptLoose(aes, card.ekey.value, pin, SerialText(card)).Ok?
        && wallet(DecryptLoose(aes, card.ekey.value, pin, SerialText(card)).value).Some?
        && OwnerCheck(card, wallet(DecryptLoose(aes, card.ekey.value, pin, SerialText(card)).value).value).None?) ==>
      var from := wallet(DecryptLoose(aes, card.ekey.value, pin, SerialText(card)).value).value;
      var send := Payment(asset, amount, from, to, chain, units);
      (send.Err? ==> r == Err(send.error))
      && (send.Ok? && chain.submit(send.value.tx).None? ==> r == Err(SubmitFailed))
      && (send.Ok? && chain.submit(send.value.tx).Some? ==>
            r == Ok(Receipt(chain.submit(send.value.tx).value, send.value.gasCost)))
  {
    match card.ekey
    case None => Err(WrongPin)
    case Some(ekey) =>
      match DecryptLoose(aes, ekey, pin, SerialText(card))
      case Err(_) => Err(WrongPin)
      case Ok(key) =>
        match wallet(key)
        case None => Err(KeyRejected)
        case Some(from) =>
          match OwnerCheck(card, from)
          case Some(e) => Err(e)
          case None =>
            match Payment(asset, amount, from, to, chain, units)
            case Err(e) => Err(e)
            case Ok(send) =>
              match chain.submit(send.tx)
              case None => Err(SubmitFailed)
              case Some(hash) => Ok(Receipt(hash, send.gasCost))
  }

  /** A key that is not the card's is refused before the chain is asked
      anything: the outcome is the same whatever the chain would answer. */
  lemma MismatchAsksNothing(
    card: Card, pin: string, to: string, amount: string, asset: Asset, chain1: Chain, chain2: Chain,
    aes: (string, string) -> Option<string>, wallet: string -> Option<string>, units: Units)
    requires card.ekey.Some? && card.addr.Some?
    requires DecryptLoose(aes, card.ekey.value, pin, SerialText(card)).Ok?
    requires var key := DecryptLoose(aes, card.ekey.value, pin, SerialText(card)).value;
      wallet(key).Some? && ToLower(wallet(key).value) != ToLower(card.addr.value)
    ensures SendTransaction(card, pin, to, amount, asset, chain1, aes, wallet, units) == Err(AddressMismatch)
    ensures SendTransaction(card, pin, to, amount, asset, chain2, aes, wallet, units) == Err(AddressMismatch)
  {
  }
}
