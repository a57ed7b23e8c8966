/** src/v2.4.8.tsx: the same checks as v.2.4.16, but the payment is sent
    at once, without a preview and without a key store. */
module V248 {
  import opened Common
  import opened CardSecret
  import opened Failover
  import opened Transfer
  import opened CardPayload
  import opened Checkout

  /** The screen state `handleSendPayment` works on. */
  class PaymentScreen {
    var card: Option<Card>
    var pin: string

    constructor()
      ensures card.None? && pin == ""
    {
      card := None;
      pin := "";
    }

    /** `readNFCCard`: the parsed card becomes the current one. */
    method ReadCard(tag: Tag, json: string -> Option<Card>) returns (r: Result<Card, ReadError>)
      modifies this
      ensures r == ParseTag(tag, json)
      ensures r.Ok? ==> card == Some(r.value)
      ensures r.Err? ==> card == old(card)
      ensures pin == old(pin)
    {
      r := ParseTag(tag, json);
      if r.Ok? {
        card := Some(r.value);
      }
    }

    /** `handleSendPayment`: the checks of `CheckPayment`, then the
        request is sent; only a sent payment clears the PIN. The card's
        missing address is filled in as soon as the key is known, even when
        a later check refuses the payment. */
    method HandleSendPayment(
      amount: string, asset: Asset, to: string, endpoints: seq<Option<string>>, chain: Chain,
      aes: (string, string) -> Option<string>, derive: string -> string, units: Units)
      returns (r: Result<string, PayError>)
      modifies this
      ensures var outcome := CheckPayment(old(card), old(pin), amount, asset, to, endpoints, chain, aes, derive, units);
        (r.Ok? <==> outcome.Ok? && chain.submit(outcome.value.plan.tx).Some?)
        && (r.Ok? ==> chain.submit(outcome.value.plan.tx) == Some(r.value) && pin == "")
        && (outcome.Err? ==> r == Err(outcome.error))
        && (outcome.Ok? && r.Err? ==> r.error == SubmitFailed)
      ensures r.Err? ==> pin == old(pin)
      ensures var decrypted := if old(card).Some? then DecryptCard(aes, old(card).value, old(pin)) else Err(DecryptError.InvalidPin);
        if r.Err? && r.error in {MissingInfo, NoProvider, WrongPin} then card == old(card)
        else decrypted.Ok? && card == Some(FilledCard(old(card).value, derive(decrypted.value)))
    {
      if card.None? || pin == "" || amount == "" {
        return Err(MissingInfo);
      }
      ghost var outcome := CheckPayment(card, pin, amount, asset, to, endpoints, chain, aes, derive, units);
      var provider, probed := GetProvider(endpoints, chain.up);
      if provider.Err? {
        assert outcome == Err(NoProvider);
        return Err(NoProvider);
      }
      var decrypted := DecryptCard(aes, card.value, pin);
      if decrypted.Err? {
        assert outcome == Err(WrongPin);
        return Err(WrongPin);
      }
      var wallet := derive(decrypted.value);
      if !Truthy(card.value.addr) {
        card := Some(card.value.(addr := Some(wallet)));
      }
      var plan := PlanPayment(asset, amount, wallet, to, chain, units);
      if plan.Err? {
        assert outcome == Err(plan.error);
        return Err(plan.error);
      }
      assert outcome == Ok(Prepared(decrypted.value, plan.value));
      match chain.submit(plan.value.tx)
      case None =>
        r := Err(SubmitFailed);
      case Some(hash) =>
        pin := "";
        r := Ok(hash);
    }
  }

  /** The request sent carries the estimate's gas limit, and the fee-market
      fields exactly when the estimate chose EIP-1559 (the gas price
      otherwise), whether a coin or a token is paid. */
  lemma SentRequestFeeFields(
    card: Option<Card>, pin: string, amount: string, asset: Asset, to: string,
    endpoints: seq<Option<string>>, chain: Chain,
    aes: (string, string) -> Option<string>, derive: string -> string, units: Units)
    requires CheckPayment(card, pin, amount, asset, to, endpoints, chain, aes, derive, units).Ok?
    ensures var p := CheckPayment(card, pin, amount, asset, to, endpoints, chain, aes, derive, units).value.plan;
      p.tx.gasLimit == Some(p.gas.gasLimit)
      && (p.tx.fees.MarketFee? <==> p.gas.strategy == Gas.Eip1559)
      && (p.tx.fees.LegacyFee? ==> p.tx.fees.gasPrice == p.gas.gasPrice)
      && (p.tx.fees.MarketFee? ==> p.tx.fees.maxFeePerGas.Some? && p.tx.fees.maxPriorityFeePerGas.Some?)
  {
    var k := CheckPayment(card, pin, amount, asset, to, endpoints, chain, aes, derive, units).value.key;
    PlanFeeFields(asset, amount, derive(k), to, chain, units);
  }
}
