/** src/village-wallet-v2.4.0.tsx: the strict key check of the later
    versions (the decryption of `Checkout.DecryptCard`), seven endpoint
    slots searched by `Failover.GetProvider`, one price service with a
    stablecoin default, and a payment whose gas limit is a 20 per cent
    buffer over the node's estimate with fixed fallbacks per network. */
module V240 {
  import opened Common
  import opened CardSecret
  import opened Failover
  import opened Gas
  import opened Transfer
  import opened CardPayload
  import opened Checkout
  import opened Prices
  import opened SimpleSend

  // ---------------------------------------------------------------------
  // fetchPrices
  // ---------------------------------------------------------------------

  /** The ids with a truthy `coingeckoId`, in order (`filter` then `map`). */
  function TruthyIds(ids: seq<Option<string>>): (r: seq<string>)
    ensures forall s :: s in r <==> Some(s) in ids && s != ""
  {
    if |ids| == 0 then []
    else (if Truthy(ids[0]) then [ids[0].value] else []) + TruthyIds(ids[1..])
  }

  /** `filter((id, index, self) => id && self.indexOf(id) === index)`: a
      truthy id is kept where it occurs first. */
  function KeepFirst(xs: seq<Option<string>>): seq<string> {
    if |xs| == 0 then []
    else
      var init := xs[..|xs| - 1];
      var x := xs[|xs| - 1];
      KeepFirst(init) + (if Truthy(x) && x !in init then [x.value] else [])
  }

  /** The ids asked for: the selected network's coin, then every token's. */
  function PriceIds(networkId: Option<string>, tokenIds: seq<Option<string>>): seq<string> {
    KeepFirst([networkId] + AsOptions(TruthyIds(tokenIds)))
  }

  function AsOptions(t: seq<string>): (r: seq<Option<string>>)
    ensures |r| == |t| && forall i :: 0 <= i < |t| ==> r[i] == Some(t[i])
  {
    if |t| == 0 then [] else [Some(t[0])] + AsOptions(t[1..])
  }

  /** Every id is kept once, exactly the non-empty ones offered. */
  lemma {:induction false} KeepFirstContents(xs: seq<Option<string>>)
    ensures forall s :: s in KeepFirst(xs) <==> Some(s) in xs && s != ""
    ensures forall i, j :: 0 <= i < j < |KeepFirst(xs)| ==> KeepFirst(xs)[i] != KeepFirst(xs)[j]
  {
    if |xs| > 0 {
      var init := xs[..|xs| - 1];
      var x := xs[|xs| - 1];
      KeepFirstContents(init);
      assert xs == init + [x];
      var r := KeepFirst(xs);
      assert r == KeepFirst(init) + (if Truthy(x) && x !in init then [x.value] else []);
      forall i, j | 0 <= i < j < |r|
        ensures r[i] != r[j]
      {
        if j >= |KeepFirst(init)| {
          assert r[j] == x.value && r[i] == KeepFirst(init)[i];
          assert r[i] in KeepFirst(init);
        }
      }
    }
  }

  /** The price-id list has no duplicate, holds exactly the non-empty ids
      offered, and starts with the network's own coin when it has one. */
  lemma PriceIdsShape(networkId: Option<string>, tokenIds: seq<Option<string>>)
    ensures var ids := PriceIds(networkId, tokenIds);
      (forall i, j :: 0 <= i < j < |ids| ==> ids[i] != ids[j])
      && (forall s :: s in ids <==> (networkId == Some(s) || Some(s) in tokenIds) && s != "")
      && (Truthy(networkId) ==> |ids| > 0 && ids[0] == networkId.value)
  {
    var t := TruthyIds(tokenIds);
    var xs := [networkId] + AsOptions(t);
    KeepFirstContents(xs);
    forall s | s != ""
      ensures Some(s) in xs <==> networkId == Some(s) || Some(s) in tokenIds
    {
      if Some(s) in tokenIds {
        assert s in t;
        var k :| 0 <= k < |t| && t[k] == s;
        assert xs[k + 1] == Some(s);
      }
      if Some(s) in xs && networkId != Some(s) {
        var k :| 0 <= k < |xs| && xs[k] == Some(s);
        assert k > 0 && t[k - 1] == s;
      }
    }
    if Truthy(networkId) {
      KeepFirstHead(xs);
    }
  }

  lemma {:induction false} KeepFirstHead(xs: seq<Option<string>>)
    requires |xs| > 0 && Truthy(xs[0])
    ensures |KeepFirst(xs)| > 0 && KeepFirst(xs)[0] == xs[0].value
  {
    if |xs| > 1 {
      var init := xs[..|xs| - 1];
      KeepFirstHead(init);
    }
  }

  /** The prices a CoinGecko answer gives the listed ids: an id is priced
      when the answer has a truthy `usd` for it. */
  function UsdFor(ids: seq<string>, data: map<string, real>): PriceMap {
    if |ids| == 0 then map[]
    else
      var m := UsdFor(ids[..|ids| - 1], data);
      var id := ids[|ids| - 1];
      if id in data && data[id] != 0.0 then m[id := data[id]] else m
  }

  /** An id is priced exactly when it was asked for and the answer has a
      non-zero price for it, and then at that price. */
  lemma {:induction false} UsdForContents(ids: seq<string>, data: map<string, real>, id: string)
    ensures id in UsdFor(ids, data) <==> id in ids && id in data && data[id] != 0.0
    ensures id in UsdFor(ids, data) ==> UsdFor(ids, data)[id] == data[id]
  {
    if |ids| > 0 {
      UsdForContents(ids[..|ids| - 1], data, id);
      assert ids == ids[..|ids| - 1] + [ids[|ids| - 1]];
    }
  }

  /** The price state of the screen. */
  class PriceBoard {
    var prices: PriceMap
    var source: string
    var loading: bool

    constructor()
      ensures prices == map[] && source == "" && !loading
    {
      prices := map[];
      source := "";
      loading := false;
    }

    /** `fetchPrices`: one request for the deduplicated ids; a failed
        request (`None`) leaves exactly the three stablecoins at 1. */
    method FetchPrices(networkId: Option<string>, tokenIds: seq<Option<string>>, response: Option<map<string, real>>)
      modifies this
      ensures response.None? ==>
        prices == map["tether" := 1.0, "usd-coin" := 1.0, "dai" := 1.0] && source == "Stablecoin defaults"
      ensures response.Some? ==> prices == UsdFor(PriceIds(networkId, tokenIds), response.value) && source == "CoinGecko"
      ensures !loading
    {
      loading := true;
      var ids := PriceIds(networkId, tokenIds);
      if response.None? {
        prices, source, loading := Stablecoins, "Stablecoin defaults", false;
        return;
      }
      var data := response.value;
      var newPrices: PriceMap := map[];
      var i := 0;
      while i < |ids|
        invariant 0 <= i <= |ids|
        invariant newPrices == UsdFor(ids[..i], data)
      {
        assert ids[..i + 1][..i] == ids[..i];
        var id := ids[i];
        if id in data && data[id] != 0.0 {
          newPrices := newPrices[id := data[id]];
        }
        i := i + 1;
      }
      assert ids[..i] == ids;
      prices, source, loading := newPrices, "CoinGecko", false;
    }
  }

  // ---------------------------------------------------------------------
  // handleSendPayment
  // ---------------------------------------------------------------------

  const ArbitrumFloor: nat := 30000
  const L2FallbackGas: nat := 100000

  /** The gas limit of a coin transfer on `network`: the node's estimate
      plus 20 per cent (truncated), at least 30000 on arbitrum; without an
      estimate, 100000 on arbitrum, optimism and base and 21000 elsewhere,
      with no buffer. */
  function GasLimit(estimate: Option<nat>, network: string): (limit: nat)
    ensures estimate.Some? ==> estimate.value <= limit
    ensures estimate.Some? && network != "arbitrum" ==>
      limit * 100 <= estimate.value * 120 < (limit + 1) * 100
    ensures estimate.Some? && network == "arbitrum" ==>
      ArbitrumFloor <= limit
      && (limit > ArbitrumFloor ==> limit * 100 <= estimate.value * 120 < (limit + 1) * 100)
    ensures estimate.None? && network in {"arbitrum", "optimism", "base"} ==> limit == L2FallbackGas
    ensures estimate.None? && network !in {"arbitrum", "optimism", "base"} ==> limit == PlainGasLimit
  {
    match estimate
    case Some(e) =>
      var buffered := e * 120 / 100;
      if network == "arbitrum" && buffered < ArbitrumFloor then ArbitrumFloor else buffered
    case None =>
      if network in ["arbitrum", "optimism", "base"] then L2FallbackGas else PlainGasLimit
  }

  /** A larger estimate never gives a smaller limit. */
  lemma GasLimitMonotone(a: nat, b: nat, network: string)
    requires a <= b
    ensures GasLimit(Some(a), network) <= GasLimit(Some(b), network)
  {
  }

  /** The coin branch: the amount, the node's gas price, the gas limit,
      then the balance against amount plus price times limit. */
  function NativeSend(amount: string, network: string, from: string, to: string, chain: Chain, units: Units)
    : (r: Result<Send, PayError>)
    ensures r.Ok? ==>
      var v := units(amount, EtherDecimals);
      var limit := GasLimit(chain.estimateGas, network);
      v.Some? && chain.gasPrice.Some? && chain.nativeBalance.Some?
      && r.value.gasCost == chain.gasPrice.value * limit
      && v.value + r.value.gasCost <= chain.nativeBalance.value
      && r.value.tx == NativeTransfer(from, to, v.value, Some(limit), LegacyFee(chain.gasPrice.value))
    ensures r.Err? && r.error.InsufficientFunds? ==>
      units(amount, EtherDecimals) == Some(r.error.amount) && chain.nativeBalance == Some(r.error.balance)
      && chain.gasPrice.Some? && r.error.fee == chain.gasPrice.value * GasLimit(chain.estimateGas, network)
      && r.error.balance < r.error.amount + r.error.fee
  {
    match units(amount, EtherDecimals)
    case None => Err(AmountUnparsable)
    case Some(value) =>
      match chain.gasPrice
      case None => Err(GasUnavailable)
      case Some(gasPrice) =>
        var gasLimit := GasLimit(chain.estimateGas, network);
        var gasCost := gasPrice * gasLimit;
        match chain.nativeBalance
        case None => Err(BalanceUnavailable)
        case Some(balance) =>
          if balance < value + gasCost then Err(ShortOfFunds(balance, value, gasCost))
          else Ok(Send(NativeTransfer(from, to, value, Some(gasLimit), LegacyFee(gasPrice)), gasCost))
  }

  /** With every answer in, a coin payment goes out exactly when the
      balance covers the amount plus the gas price times the limit. */
  lemma NativeSendIff(amount: string, network: string, from: string, to: string, chain: Chain, units: Units)
    requires units(amount, EtherDecimals).Some? && chain.gasPrice.Some? && chain.nativeBalance.Some?
    ensures NativeSend(amount, network, from, to, chain, units).Ok? <==>
      chain.nativeBalance.value >= units(amount, EtherDecimals).value + chain.gasPrice.value * GasLimit(chain.estimateGas, network)
  {
  }

  /** The branch for the selected currency. */
  function Payment(asset: Asset, amount: string, network: string, from: string, to: string, chain: Chain, units: Units)
    : (r: Result<Send, PayError>)
    ensures r.Err? ==> !(r.error in {MissingInfo, NoProvider, WrongPin})
  {
    match asset
    case Native => NativeSend(amount, network, from, to, chain, units)
    case Token(address, decimals) => TokenSend(address, decimals, amount, from, to, chain, units, true)
  }

  /** What `handleSendPayment` decides before sending: missing input, no
      endpoint, a wrong PIN, or the branch's request for the wallet of the
      decrypted key (with that key). */
  function CheckSend(
    card: Option<Card>, pin: string, amount: string, asset: Asset, network: string, to: string,
    endpoints: seq<Option<string>>, chain: Chain,
    aes: (string, string) -> Option<string>, derive: string -> string, units: Units)
    : (r: Result<(string, Send), PayError>)
    ensures r == Err(MissingInfo) <==> card.None? || pin == "" || amount == ""
    ensures r == Err(NoProvider) <==>
      card.Some? && pin != "" && amount != "" && FirstResponder(Configured(endpoints), chain.up).None?
    ensures r == Err(WrongPin) <==>
      card.Some? && pin != "" && amount != "" && FirstResponder(Configured(endpoints), chain.up).Some?
      && DecryptCard(aes, card.value, pin).Err?
    ensures r.Ok? ==>
      DecryptCard(aes, card.value, pin) == Ok(r.value.0) && IsStrictKey(r.value.0)
      && Payment(asset, amount, network, derive(r.value.0), to, chain, units) == Ok(r.value.1)
    ensures (card.Some? && pin != "" && amount != "" && FirstResponder(Configured(endpoints), chain.up).Some?
        && DecryptCard(aes, card.value, pin).Ok?) ==>
      var key := DecryptCard(aes, card.value, pin).value;
      var send := Payment(asset, amount, network, derive(key), to, chain, units);
      (send.Ok? ==> r == Ok((key, send.value))) && (send.Err? ==> r == Err(send.error))
  {
    if card.None? || pin == "" || amount == "" then Err(MissingInfo)
    else if FirstResponder(Configured(endpoints), chain.up).None? then Err(NoProvider)
    else
      match DecryptCard(aes, card.value, pin)
      case Err(_) => Err(WrongPin)
      case Ok(key) =>
        match Payment(asset, amount, network, derive(key), to, chain, units)
        case Err(e) => Err(e)
        case Ok(send) => Ok((key, send))
  }

  /** The screen state `handleSendPayment` works on. */
  class PaymentScreen {
    var card: Option<Card>
    var pin: string

    constructor()
      ensures card.None? && pin == ""
    {
      card := None;
      pin := "";
    }

    /** `handleSendPayment`: the checks of `CheckSend`, then the request is
        sent; only a sent payment clears the PIN. The card's missing
        address is filled in once the key is known. */
    method HandleSendPayment(
      amount: string, asset: Asset, network: string, to: string, endpoints: seq<Option<string>>, chain: Chain,
      aes: (string, string) -> Option<string>, derive: string -> string, units: Units)
      returns (r: Result<Receipt, PayError>)
      modifies this
      ensures var outcome := CheckSend(old(card), old(pin), amount, asset, network, to, endpoints, chain, aes, derive, units);
        (outcome.Err? ==> r == Err(outcome.error))
        && (outcome.Ok? ==>
              match chain.submit(outcome.value.1.tx)
              case None => r == Err(SubmitFailed)
              case Some(hash) => r == Ok(Receipt(hash, outcome.value.1.gasCost)))
      ensures r.Ok? ==> pin == ""
      ensures r.Err? ==> pin == old(pin)
      ensures var decrypted := if old(card).Some? then DecryptCard(aes, old(card).value, old(pin)) else Err(DecryptError.InvalidPin);
        if r.Err? && r.error in {MissingInfo, NoProvider, WrongPin} then card == old(card)
        else decrypted.Ok? && card == Some(FilledCard(old(card).value, derive(decrypted.value)))
    {
      if card.None? || pin == "" || amount == "" {
        return Err(MissingInfo);
      }
      ghost var outcome := CheckSend(card, pin, amount, asset, network, to, endpoints, chain, aes, derive, units);
      var provider, probed := GetProvider(endpoints, chain.up);
      if provider.Err? {
        return Err(NoProvider);
      }
      var decrypted := DecryptCard(aes, card.value, pin);
      if decrypted.Err? {
        return Err(WrongPin);
      }
      var wallet := derive(decrypted.value);
      if !Truthy(card.value.addr) {
        card := Some(card.value.(addr := Some(wallet)));
      }
      var send := Payment(asset, amount, network, wallet, to, chain, units);
      if send.Err? {
        assert outcome == Err(send.error);
        return Err(send.error);
      }
      assert outcome == Ok((decrypted.value, send.value));
      match chain.submit(send.value.tx)
      case None =>
        r := Err(SubmitFailed);
      case Some(hash) =>
        pin := "";
        r := Ok(Receipt(hash, send.value.gasCost));
    }
  }
}
