/** USD prices as the app keeps them: a map from CoinGecko coin id to a
    price. Prices are opaque reals here; how they are displayed is not
    part of the model. */
module Prices {
  type PriceMap = map<string, real>

  /** The three stablecoins priced at one dollar. */
  const Stablecoins: PriceMap := map["tether" := 1.0, "usd-coin" := 1.0, "dai" := 1.0]

  /** The coins whose price has no safe default. */
  const VolatileIds: seq<string> := ["ethereum", "matic-network", "binancecoin"]

  lemma StablecoinCount()
    ensures Stablecoins.Keys == {"tether", "usd-coin", "dai"}
    ensures |Stablecoins| == 3
  {
    assert Stablecoins.Keys == {"tether", "usd-coin", "dai"};
  }
}
