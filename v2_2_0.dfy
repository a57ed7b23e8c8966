/** src/village-wallet-v2.2.0.tsx: nine endpoint slots per network, a
    reachability sweep over all networks, prices from four services in
    turn, a card that must be JSON with address, key and serial, and a
    payment whose key is the unprefixed plaintext. `getProvider` is the
    loop of `Failover.GetProvider` over nine slots. */
module V220 {
  import opened Common
  import opened CardSecret
  import opened Failover
  import opened Gas
  import opened Transfer
  import opened CardPayload
  import opened Prices
  import opened SimpleSend

  // ---------------------------------------------------------------------
  // testAllNetworks
  // ---------------------------------------------------------------------

  /** A network as the sweep sees it: its key in `NETWORKS` and its nine
      endpoint slots. */
  type Network = (string, seq<Option<string>>)

  /** The keys of `Object.keys(NETWORKS)` are distinct. */
  predicate DistinctKeys(networks: seq<Network>) {
    forall i, j :: 0 <= i < j < |networks| ==> networks[i].0 != networks[j].0
  }

  /** The endpoints one search probes: up to and including the first that
      answers, or all of them. */
  function Probed(rpcs: seq<string>, up: string -> bool): (p: seq<string>)
    ensures p <= rpcs
    ensures forall j :: 0 <= j < |p| - 1 ==> !up(p[j])
    ensures FirstResponder(rpcs, up).Some? <==> |p| > 0 && up(p[|p| - 1])
  {
    match FirstResponder(rpcs, up)
    case Some(i) => rpcs[..i + 1]
    case None => rpcs
  }

  /** The probes of the whole sweep, network after network. */
  ghost function SweepProbes(networks: seq<Network>, up: string -> bool): seq<string> {
    if |networks| == 0 then []
    else SweepProbes(networks[..|networks| - 1], up) + Probed(Configured(networks[|networks| - 1].1), up)
  }

  /** The inner loop of `testAllNetworks`: the configured endpoints in
      order, `connected` set and the loop left at the first answer. */
  method ProbeNetwork(slots: seq<Option<string>>, up: string -> bool)
    returns (connected: bool, ghost tried: seq<string>)
    ensures connected == FirstResponder(Configured(slots), up).Some?
    ensures tried == Probed(Configured(slots), up)
  {
    var rpcs := Configured(slots);
    connected := false;
    tried := [];
    var k := 0;
    while k < |rpcs|
      invariant 0 <= k <= |rpcs|
      invariant !connected
      invariant forall j :: 0 <= j < k ==> !up(rpcs[j])
      invariant tried == rpcs[..k]
    {
      if up(rpcs[k]) {
        connected := true;
        tried := tried + [rpcs[k]];
        break;
      }
      tried := tried + [rpcs[k]];
      k := k + 1;
    }
    if connected {
      FirstResponderUnique(rpcs, up, k);
      assert tried == rpcs[..k + 1];
    } else {
      assert tried == rpcs;
    }
  }

  /** The statuses recorded for the first `n` networks, `want[i]` being
      the status due to network `i`. */
  predicate Recorded(statuses: map<string, bool>, networks: seq<Network>, want: seq<bool>, n: nat)
    requires n <= |networks| == |want|
  {
    && statuses.Keys == (set i | 0 <= i < n :: networks[i].0)
    && forall i :: 0 <= i < n ==> statuses[networks[i].0] == want[i]
  }

  lemma RecordedStep(statuses: map<string, bool>, networks: seq<Network>, want: seq<bool>, n: nat)
    requires n < |networks| == |want| && DistinctKeys(networks)
    requires Recorded(statuses, networks, want, n)
    ensures Recorded(statuses[networks[n].0 := want[n]], networks, want, n + 1)
  {
    var key := networks[n].0;
    var updated := statuses[key := want[n]];
    assert (set i | 0 <= i < n + 1 :: networks[i].0) == (set i | 0 <= i < n :: networks[i].0) + {key};
    forall i | 0 <= i < n + 1
      ensures updated[networks[i].0] == want[i]
    {
      if i < n {
        assert networks[i].0 != key;
      }
    }
  }

  lemma SweepProbesStep(networks: seq<Network>, n: nat, up: string -> bool)
    requires n < |networks|
    ensures SweepProbes(networks[..n + 1], up) == SweepProbes(networks[..n], up) + Probed(Configured(networks[n].1), up)
  {
    assert networks[..n + 1][..n] == networks[..n];
  }

  /** `testAllNetworks`: every network gets a status, true exactly when one
      of its configured endpoints answers; each network's probing stops at
      its first answer. */
  method TestAllNetworks(networks: seq<Network>, up: string -> bool)
    returns (statuses: map<string, bool>, ghost probed: seq<string>)
    requires DistinctKeys(networks)
    ensures statuses.Keys == set i | 0 <= i < |networks| :: networks[i].0
    ensures forall i :: 0 <= i < |networks| ==>
      statuses[networks[i].0] == FirstResponder(Configured(networks[i].1), up).Some?
    ensures probed == SweepProbes(networks, up)
  {
    ghost var want := seq(|networks|, i requires 0 <= i < |networks| => FirstResponder(Configured(networks[i].1), up).Some?);
    statuses := map[];
    probed := [];
    var n := 0;
    while n < |networks|
      invariant 0 <= n <= |networks|
      invariant Recorded(statuses, networks, want, n)
      invariant probed == SweepProbes(networks[..n], up)
    {
      var (key, slots) := networks[n];
      var connected, tried := ProbeNetwork(slots, up);
      SweepProbesStep(networks, n, up);
      RecordedStep(statuses, networks, want, n);
      statuses := statuses[key := connected];
      probed := probed + tried;
      n := n + 1;
    }
    assert networks[..n] == networks;
  }

  // ---------------------------------------------------------------------
  // The four price services
  // ---------------------------------------------------------------------

  /** One entry of CoinGecko's answer: the coin id and its `usd` field,
      `None` when the value is not an object holding `usd`. */
  type GeckoEntry = (string, Option<real>)

  /** The `usd` fields of the answer, a later entry overwriting an earlier
      one with the same id. */
  function UsdPrices(entries: seq<GeckoEntry>): PriceMap {
    if |entries| == 0 then map[]
    else
      var m := UsdPrices(entries[..|entries| - 1]);
      var (id, usd) := entries[|entries| - 1];
      if usd.Some? then m[id := usd.value] else m
  }

  /** A coin is priced exactly when some entry for it carries `usd`. */
  lemma {:induction false} UsdPricesKeys(entries: seq<GeckoEntry>, id: string)
    ensures id in UsdPrices(entries) <==> exists i :: 0 <= i < |entries| && entries[i].0 == id && entries[i].1.Some?
  {
    if |entries| > 0 {
      var init := entries[..|entries| - 1];
      UsdPricesKeys(init, id);
      if exists i :: 0 <= i < |init| && init[i].0 == id && init[i].1.Some? {
        var i :| 0 <= i < |init| && init[i].0 == id && init[i].1.Some?;
        assert entries[i] == init[i];
      }
      if exists i :: 0 <= i < |entries| && entries[i].0 == id && entries[i].1.Some? {
        var i :| 0 <= i < |entries| && entries[i].0 == id && entries[i].1.Some?;
        if i < |init| {
          assert init[i] == entries[i];
        }
      }
    }
  }

  /** With distinct ids (as in a JSON object), each price is the one the
      answer gave for that coin. */
  lemma {:induction false} UsdPricesValue(entries: seq<GeckoEntry>, i: nat)
    requires i < |entries| && entries[i].1.Some?
    requires forall a, b :: 0 <= a < b < |entries| ==> entries[a].0 != entries[b].0
    ensures entries[i].0 in UsdPrices(entries) && UsdPrices(entries)[entries[i].0] == entries[i].1.value
  {
    var init := entries[..|entries| - 1];
    if i < |entries| - 1 {
      assert init[i] == entries[i];
      UsdPricesValue(init, i);
    }
  }

  /** What `fetchPricesFromCoinGecko` returns, `None` when it throws: a
      failed request or an answer without any `usd` field. */
  function GeckoPrices(response: Option<seq<GeckoEntry>>): Option<PriceMap> {
    match response
    case None => None
    case Some(entries) => if |UsdPrices(entries)| == 0 then None else Some(UsdPrices(entries))
  }

  /** CoinGecko is used exactly when its answer prices at least one coin. */
  lemma GeckoPricesAnswered(response: Option<seq<GeckoEntry>>)
    ensures GeckoPrices(response).Some? <==>
      response.Some? && exists i :: 0 <= i < |response.value| && response.value[i].1.Some?
  {
    if response.Some? {
      var entries := response.value;
      if exists i :: 0 <= i < |entries| && entries[i].1.Some? {
        var i :| 0 <= i < |entries| && entries[i].1.Some?;
        UsdPricesKeys(entries, entries[i].0);
      } else if |UsdPrices(entries)| != 0 {
        var id :| id in UsdPrices(entries);
        UsdPricesKeys(entries, id);
      }
    }
  }

  /** `fetchPricesFromCoinGecko`: the loop over the answer's entries. */
  method FetchFromCoinGecko(response: Option<seq<GeckoEntry>>) returns (r: Option<PriceMap>)
    ensures r == GeckoPrices(response)
  {
    if response.None? {
      return None;
    }
    var entries := response.value;
    var newPrices: PriceMap := map[];
    var i := 0;
    while i < |entries|
      invariant 0 <= i <= |entries|
      invariant newPrices == UsdPrices(entries[..i])
    {
      assert entries[..i + 1][..i] == entries[..i];
      var (id, usd) := entries[i];
      if usd.Some? {
        newPrices := newPrices[id := usd.value];
      }
      i := i + 1;
    }
    assert entries[..i] == entries;
    if |newPrices| == 0 {
      return None;
    }
    return Some(newPrices);
  }

  /** `data.SYM?.USD || default`: a missing or zero quote gives way to the
      default. */
  function QuoteOr(quotes: map<string, real>, symbol: string, default: real): (p: real)
    ensures symbol in quotes && quotes[symbol] != 0.0 ==> p == quotes[symbol]
    ensures !(symbol in quotes && quotes[symbol] != 0.0) ==> p == default
  {
    if symbol in quotes && quotes[symbol] != 0.0 then quotes[symbol] else default
  }

  /** `fetchPricesFromCryptoCompare`: whenever the service answers, all six
      coins are priced, the volatile ones at 0 and the stablecoins at 1
      when their quote is missing. `quotes` maps a symbol to its `USD`
      field; `None` is a failed request. */
  function CryptoComparePrices(response: Option<map<string, real>>): (r: Option<PriceMap>)
    ensures r.Some? <==> response.Some?
    ensures r.Some? ==> r.value.Keys == Stablecoins.Keys + {"ethereum", "matic-network", "binancecoin"}
    ensures r.Some? ==> forall id :: id in Stablecoins ==> r.value[id] != 0.0
    ensures r.Some? ==>
      r.value["ethereum"] == QuoteOr(response.value, "ETH", 0.0)
      && r.value["matic-network"] == QuoteOr(response.value, "MATIC", 0.0)
      && r.value["binancecoin"] == QuoteOr(response.value, "BNB", 0.0)
      && r.value["tether"] == QuoteOr(response.value, "USDT", 1.0)
      && r.value["usd-coin"] == QuoteOr(response.value, "USDC", 1.0)
      && r.value["dai"] == QuoteOr(response.value, "DAI", 1.0)
  {
    match response
    case None => None
    case Some(quotes) =>
      Some(map[
        "ethereum" := QuoteOr(quotes, "ETH", 0.0),
        "matic-network" := QuoteOr(quotes, "MATIC", 0.0),
        "binancecoin" := QuoteOr(quotes, "BNB", 0.0),
        "tether" := QuoteOr(quotes, "USDT", 1.0),
        "usd-coin" := QuoteOr(quotes, "USDC", 1.0),
        "dai" := QuoteOr(quotes, "DAI", 1.0)])
  }

  /** A trading pair asked for and the coin id its price is stored under. */
  type Pair = (string, string)

  const BinancePairs: seq<Pair> := [("ETHUSDT", "ethereum"), ("MATICUSDT", "matic-network"), ("BNBUSDT", "binancecoin")]
  const CoinbasePairs: seq<Pair> := [("ETH-USD", "ethereum"), ("MATIC-USD", "matic-network"), ("BNB-USD", "binancecoin")]

  /** The stablecoins, then each pair that answered, in order. `quote` is
      the parsed price of a pair, `None` when its request failed. */
  function Seeded(pairs: seq<Pair>, quote: string -> Option<real>): PriceMap {
    if |pairs| == 0 then Stablecoins
    else
      var m := Seeded(pairs[..|pairs| - 1], quote);
      var (pair, id) := pairs[|pairs| - 1];
      match quote(pair)
      case Some(p) => m[id := p]
      case None => m
  }

  lemma {:induction false} SeededKeys(pairs: seq<Pair>, quote: string -> Option<real>, id: string)
    ensures id in Seeded(pairs, quote) <==>
      id in Stablecoins || exists i :: 0 <= i < |pairs| && pairs[i].1 == id && quote(pairs[i].0).Some?
  {
    if |pairs| > 0 {
      var init := pairs[..|pairs| - 1];
      SeededKeys(init, quote, id);
      if exists i :: 0 <= i < |init| && init[i].1 == id && quote(init[i].0).Some? {
        var i :| 0 <= i < |init| && init[i].1 == id && quote(init[i].0).Some?;
        assert pairs[i] == init[i];
      }
      if exists i :: 0 <= i < |pairs| && pairs[i].1 == id && quote(pairs[i].0).Some? {
        var i :| 0 <= i < |pairs| && pairs[i].1 == id && quote(pairs[i].0).Some?;
        if i < |init| {
          assert init[i] == pairs[i];
        }
      }
    }
  }

  /** A stablecoin no pair is stored under keeps its price of 1. */
  lemma {:induction false} SeededKeepsStable(pairs: seq<Pair>, quote: string -> Option<real>, id: string)
    requires id in Stablecoins
    requires forall i :: 0 <= i < |pairs| ==> pairs[i].1 != id
    ensures id in Seeded(pairs, quote) && Seeded(pairs, quote)[id] == 1.0
  {
    if |pairs| > 0 {
      SeededKeepsStable(pairs[..|pairs| - 1], quote, id);
    }
  }

  /** At least four prices exactly when a pair for a coin other than the
      stablecoins answered. */
  lemma SeededCount(pairs: seq<Pair>, quote: string -> Option<real>)
    ensures |Seeded(pairs, quote)| >= 4 <==>
      exists i :: 0 <= i < |pairs| && pairs[i].1 !in Stablecoins && quote(pairs[i].0).Some?
  {
    StablecoinCount();
    var keys := Seeded(pairs, quote).Keys;
    forall id | id in Stablecoins
      ensures id in keys
    {
      SeededKeys(pairs, quote, id);
    }
    if exists i :: 0 <= i < |pairs| && pairs[i].1 !in Stablecoins && quote(pairs[i].0).Some? {
      var i :| 0 <= i < |pairs| && pairs[i].1 !in Stablecoins && quote(pairs[i].0).Some?;
      SeededKeys(pairs, quote, pairs[i].1);
      assert Stablecoins.Keys + {pairs[i].1} <= keys;
      assert |Stablecoins.Keys + {pairs[i].1}| == 4;
      SubsetSize(Stablecoins.Keys + {pairs[i].1}, keys);
    } else {
      forall id | id in keys
        ensures id in Stablecoins
      {
        SeededKeys(pairs, quote, id);
      }
      assert keys == Stablecoins.Keys;
    }
  }

  lemma SubsetSize<T>(a: set<T>, b: set<T>)
    requires a <= b
    ensures |a| <= |b|
  {
    assert b == a + (b - a);
  }

  /** What `fetchPricesFromBinance` and `fetchPricesFromCoinbase` return,
      `None` when they throw for having fewer than four prices. */
  function PairPrices(pairs: seq<Pair>, quote: string -> Option<real>): Option<PriceMap> {
    if |Seeded(pairs, quote)| < 4 then None else Some(Seeded(pairs, quote))
  }

  /** Binance and Coinbase are used exactly when one of their volatile
      pairs answered; their map then holds the three stablecoins at 1. */
  lemma PairPricesAnswered(pairs: seq<Pair>, quote: string -> Option<real>)
    requires pairs == BinancePairs || pairs == CoinbasePairs
    ensures PairPrices(pairs, quote).Some? <==> exists i :: 0 <= i < |pairs| && quote(pairs[i].0).Some?
    ensures PairPrices(pairs, quote).Some? ==>
      forall id :: id in Stablecoins ==> id in PairPrices(pairs, quote).value && PairPrices(pairs, quote).value[id] == 1.0
  {
    SeededCount(pairs, quote);
    forall id | id in Stablecoins
      ensures id in Seeded(pairs, quote) && Seeded(pairs, quote)[id] == 1.0
    {
      SeededKeepsStable(pairs, quote, id);
    }
  }

  /** The loop of the Binance and Coinbase adapters over their pairs. */
  method FetchPairs(pairs: seq<Pair>, quote: string -> Option<real>) returns (r: Option<PriceMap>)
    ensures r == PairPrices(pairs, quote)
  {
    var newPrices := Stablecoins;
    var i := 0;
    while i < |pairs|
      invariant 0 <= i <= |pairs|
      invariant newPrices == Seeded(pairs[..i], quote)
    {
      assert pairs[..i + 1][..i] == pairs[..i];
      var (pair, id) := pairs[i];
      var answer := quote(pair);
      if answer.Some? {
        newPrices := newPrices[id := answer.value];
      }
      i := i + 1;
    }
    assert pairs[..i] == pairs;
    if |newPrices| < 4 {
      return None;
    }
    return Some(newPrices);
  }

  /** The map installed when no service answers. */
  const FallbackPrices: PriceMap := map[
    "tether" := 1.0, "usd-coin" := 1.0, "dai" := 1.0,
    "ethereum" := 0.0, "matic-network" := 0.0, "binancecoin" := 0.0]

  lemma FallbackPricesStable()
    ensures |FallbackPrices| > 0
    ensures forall id :: id in Stablecoins ==> id in FallbackPrices && FallbackPrices[id] == 1.0
  {
    StablecoinCount();
    assert "tether" in FallbackPrices;
  }

  /** What every service said, in the order they are asked. */
  datatype PriceAnswers = PriceAnswers(
    gecko: Option<seq<GeckoEntry>>,
    compare: Option<map<string, real>>,
    binance: string -> Option<real>,
    coinbase: string -> Option<real>)

  /** The first service with a non-empty map wins, unmerged; otherwise the
      fallback map. The result is the prices and their source's name. */
  function PriceChain(a: PriceAnswers): (r: (PriceMap, string))
    ensures |r.0| > 0
    ensures r.1 == "CoinGecko" <==> GeckoPrices(a.gecko).Some?
    ensures r.1 == "CoinGecko" ==> r.0 == GeckoPrices(a.gecko).value
    ensures r.1 == "CryptoCompare" <==> GeckoPrices(a.gecko).None? && a.compare.Some?
    ensures r.1 == "CryptoCompare" ==> r.0 == CryptoComparePrices(a.compare).value
    ensures r.1 == "Binance" <==>
      GeckoPrices(a.gecko).None? && a.compare.None? && PairPrices(BinancePairs, a.binance).Some?
    ensures r.1 == "Binance" ==> r.0 == PairPrices(BinancePairs, a.binance).value
    ensures r.1 == "Coinbase" <==>
      GeckoPrices(a.gecko).None? && a.compare.None?
      && PairPrices(BinancePairs, a.binance).None? && PairPrices(CoinbasePairs, a.coinbase).Some?
    ensures r.1 == "Coinbase" ==> r.0 == PairPrices(CoinbasePairs, a.coinbase).value
    ensures r.1 != "CoinGecko" ==> forall id :: id in Stablecoins ==> id in r.0 && r.0[id] != 0.0
    ensures r.1 == "Fallback (No API)" <==>
      GeckoPrices(a.gecko).None? && a.compare.None?
      && PairPrices(BinancePairs, a.binance).None? && PairPrices(CoinbasePairs, a.coinbase).None?
    ensures r.1 == "Fallback (No API)" ==>
      r.0 == map["tether" := 1.0, "usd-coin" := 1.0, "dai" := 1.0,
                 "ethereum" := 0.0, "matic-network" := 0.0, "binancecoin" := 0.0]
  {
    var fromGecko := GeckoPrices(a.gecko);
    var fromCompare := CryptoComparePrices(a.compare);
    var fromBinance := PairPrices(BinancePairs, a.binance);
    var fromCoinbase := PairPrices(CoinbasePairs, a.coinbase);
    if fromGecko.Some? then (fromGecko.value, "CoinGecko")
    else if fromCompare.Some? then (fromCompare.value, "CryptoCompare")
    else if fromBinance.Some? then
      PairPricesAnswered(BinancePairs, a.binance);
      (fromBinance.value, "Binance")
    else if fromCoinbase.Some? then
      PairPricesAnswered(CoinbasePairs, a.coinbase);
      (fromCoinbase.value, "Coinbase")
    else
      FallbackPricesStable();
      (FallbackPrices, "Fallback (No API)")
  }

  /** Because CryptoCompare always prices all six coins, Binance and
      Coinbase are only ever consulted when CryptoCompare fails. */
  lemma CryptoCompareShadowsPairs(a: PriceAnswers)
    requires a.compare.Some?
    ensures PriceChain(a).1 in {"CoinGecko", "CryptoCompare"}
  {
  }

  /** The price state of the screen. */
  class PriceBoard {
    var prices: PriceMap
    var source: string
    var loading: bool

    constructor()
      ensures prices == map[] && source == "" && !loading
    {
      prices := map[];
      source := "";
      loading := false;
    }

    /** `fetchPrices`: the four services in turn, then the fallback. */
    method FetchPrices(a: PriceAnswers)
      modifies this
      ensures (prices, source) == PriceChain(a)
      ensures !loading
    {
      loading := true;
      var fromGecko := FetchFromCoinGecko(a.gecko);
      if fromGecko.Some? && |fromGecko.value| > 0 {
        prices, source, loading := fromGecko.value, "CoinGecko", false;
        return;
      }
      var fromCompare := CryptoComparePrices(a.compare);
      if fromCompare.Some? && |fromCompare.value| > 0 {
        prices, source, loading := fromCompare.value, "CryptoCompare", false;
        return;
      }
      var fromBinance := FetchPairs(BinancePairs, a.binance);
      if fromBinance.Some? && |fromBinance.value| > 0 {
        prices, source, loading := fromBinance.value, "Binance", false;
        return;
      }
      var fromCoinbase := FetchPairs(CoinbasePairs, a.coinbase);
      if fromCoinbase.Some? && |fromCoinbase.value| > 0 {
        prices, source, loading := fromCoinbase.value, "Coinbase", false;
        return;
      }
      prices, source, loading := FallbackPrices, "Fallback (No API)", false;
    }
  }

  // ---------------------------------------------------------------------
  // readNFCCard
  // ---------------------------------------------------------------------

  /** The card check of `readNFCCard`: a payload, valid JSON, and a
      non-empty address, encrypted key and serial. */
  function ValidateCard(tag: Tag, json: string -> Option<Card>): (r: Result<Card, ReadError>)
    ensures r == Err(NoDataOnCard) <==> tag.payload.None?
    ensures r == Err(UnparsableCard) <==> tag.payload.Some? && json(PayloadText(tag.payload.value)).None?
    ensures r.Ok? <==>
      tag.payload.Some? && json(PayloadText(tag.payload.value)).Some?
      && var c := json(PayloadText(tag.payload.value)).value;
      Truthy(c.addr) && Truthy(c.ekey) && Truthy(c.serial)
    ensures r.Ok? ==> r.value == json(PayloadText(tag.payload.value)).value
  {
    match tag.payload
    case None => Err(NoDataOnCard)
    case Some(bytes) =>
      match json(PayloadText(bytes))
      case None => Err(UnparsableCard)
      case Some(card) =>
        if !Truthy(card.addr) || !Truthy(card.ekey) || !Truthy(card.serial) then Err(InvalidCardFormat)
        else Ok(card)
  }

  /** A card this version accepts is read the same way by v.2.4.16 and
      v2.4.8; the converse fails for cards written as `key|name`. */
  lemma ValidCardParsesAlike(tag: Tag, json: string -> Option<Card>)
    requires ValidateCard(tag, json).Ok?
    ensures ParseTag(tag, json) == ValidateCard(tag, json)
  {
  }

  /** The reader and the card it last accepted. */
  class NfcReader {
    var card: Option<Card>

    constructor()
      ensures card.None?
    {
      card := None;
    }

    /** `readNFCCard`: a card that passes the check becomes the current
        card; a refused one leaves the current card as it was. */
    method ReadCard(tag: Tag, json: string -> Option<Card>) returns (r: Result<Card, ReadError>)
      modifies this
      ensures r == ValidateCard(tag, json)
      ensures r.Ok? ==> card == Some(r.value)
      ensures r.Err? ==> card == old(card)
    {
      r := ValidateCard(tag, json);
      if r.Ok? {
        card := Some(r.value);
      }
    }
  }

  // ---------------------------------------------------------------------
  // sendTransaction
  // ---------------------------------------------------------------------

  /** The coin branch: the amount, the node's gas price, a fee of 21000
      gas at that price, then the balance against amount plus fee. */
  function NativeSend(amount: string, from: string, to: string, chain: Chain, units: Units)
    : (r: Result<Send, PayError>)
    ensures r.Ok? ==>
      var v := units(amount, EtherDecimals);
      v.Some? && chain.gasPrice.Some? && chain.nativeBalance.Some?
      && r.value.gasCost == chain.gasPrice.value * PlainGasLimit
      && v.value + r.value.gasCost <= chain.nativeBalance.value
      && r.value.tx == NativeTransfer(from, to, v.value, Some(PlainGasLimit), LegacyFee(chain.gasPrice.value))
    ensures r.Err? && r.error.InsufficientFunds? ==>
      units(amount, EtherDecimals) == Some(r.error.amount) && chain.nativeBalance == Some(r.error.balance)
      && chain.gasPrice.Some? && r.error.fee == chain.gasPrice.value * PlainGasLimit
      && r.error.balance < r.error.amount + r.error.fee
  {
    match units(amount, EtherDecimals)
    case None => Err(AmountUnparsable)
    case Some(value) =>
      match chain.gasPrice
      case None => Err(GasUnavailable)
      case Some(gasPrice) =>
        var gasCost := gasPrice * PlainGasLimit;
        match chain.nativeBalance
        case None => Err(BalanceUnavailable)
        case Some(balance) =>
          if balance < value + gasCost then Err(ShortOfFunds(balance, value, gasCost))
          else Ok(Send(NativeTransfer(from, to, value, Some(PlainGasLimit), LegacyFee(gasPrice)), gasCost))
  }

  /** With every answer in, a coin payment goes out exactly when the
      balance covers amount plus 21000 gas at the node's price. */
  lemma NativeSendIff(amount: string, from: string, to: string, chain: Chain, units: Units)
    requires units(amount, EtherDecimals).Some? && chain.gasPrice.Some? && chain.nativeBalance.Some?
    ensures NativeSend(amount, from, to, chain, units).Ok? <==>
      chain.nativeBalance.value >= units(amount, EtherDecimals).value + chain.gasPrice.value * 21000
  {
  }

  /** The branch for the selected currency. */
  function Payment(asset: Asset, amount: string, from: string, to: string, chain: Chain, units: Units)
    : Result<Send, PayError>
  {
    match asset
    case Native => NativeSend(amount, from, to, chain, units)
    case Token(address, decimals) => TokenSend(address, decimals, amount, from, to, chain, units, true)
  }

  /** `sendTransaction`: an endpoint, the key (the plaintext as it is, of
      at least 32 characters), the wallet it makes, then the branch for
      the selected currency and the submission. `wallet` is the address
      ethers derives from a key, `None` when it refuses the key. */
  function SendTransaction(
    card: Card, pin: string, to: string, amount: string, asset: Asset,
    endpoints: seq<Option<string>>, chain: Chain,
    aes: (string, string) -> Option<string>, wallet: string -> Option<string>, units: Units)
    : (r: Result<Receipt, PayError>)
    ensures r == Err(NoProvider) <==> FirstResponder(Configured(endpoints), chain.up).None?
    ensures r == Err(WrongPin) <==>
      FirstResponder(Configured(endpoints), chain.up).Some? && card.ekey.Some?
      && DecryptUnprefixed(aes, card.ekey.value, SerialText(card), pin) == Err(DecryptError.InvalidPin)
    ensures r.Ok? ==>
      FirstResponder(Configured(endpoints), chain.up).Some? && card.ekey.Some?
      && var key := DecryptUnprefixed(aes, card.ekey.value, SerialText(card), pin);
      key.Ok? && |key.value| >= 32
      && aes(card.ekey.value, Passphrase(SerialText(card), pin)) == Some(key.value)
      && wallet(key.value).Some?
      && var send := Payment(asset, amount, wallet(key.value).value, to, chain, units);
      send.Ok? && chain.submit(send.value.tx) == Some(r.value.hash) && r.value.gasCost == send.value.gasCost
    ensures (FirstResponder(Configured(endpoints), chain.up).Some? && card.ekey.Some?
        && DecryptUnprefixed(aes, card.ekey.value, SerialText(card), pin).Ok?
        && wallet(DecryptUnprefixed(aes, card.ekey.value, SerialText(card), pin).value).Some?) ==>
      var from := wallet(DecryptUnprefixed(aes, card.ekey.value, SerialText(card), pin).value).value;
      var send := Payment(asset, amount, from, to, chain, units);
      (send.Err? ==> r == Err(send.error))
      && (send.Ok? && chain.submit(send.value.tx).None? ==> r == Err(SubmitFailed))
      && (send.Ok? && chain.submit(send.value.tx).Some? ==>
            r == Ok(Receipt(chain.submit(send.value.tx).value, send.value.gasCost)))
  {
    if FirstResponder(Configured(endpoints), chain.up).None? then Err(NoProvider)
    else
      match card.ekey
      case None => Err(DecryptThrew)
      case Some(ekey) =>
        match DecryptUnprefixed(aes, ekey, SerialText(card), pin)
        case Err(CipherFailure) => Err(DecryptThrew)
        case Err(InvalidPin) => Err(WrongPin)
        case Ok(key) =>
          match wallet(key)
          case None => Err(KeyRejected)
          case Some(from) =>
            match Payment(asset, amount, from, to, chain, units)
            case Err(e) => Err(e)
            case Ok(send) =>
              match chain.submit(send.tx)
              case None => Err(SubmitFailed)
              case Some(hash) => Ok(Receipt(hash, send.gasCost))
  }
}
