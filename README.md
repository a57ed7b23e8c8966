# Village Wallet payment core, in Dafny

Village Wallet is a React Native point-of-sale app. A customer taps an
NFC card that holds an AES-encrypted private key. The customer types a
PIN. The merchant's phone then decrypts the key and pays the merchant in
the network's coin or in an ERC-20 token. The repository keeps six
near-duplicate versions of the app. This project models the payment
pipeline of each version separately, so that the versions can be compared
file by file:

- `src/v.2.4.16.tsx` becomes module `V2416`.
- `src/v2.4.8.tsx` becomes module `V248`.
- `src/village-wallet-v2.4.0.tsx` becomes module `V240`.
- `src/village-wallet-v2.2.0.tsx` becomes module `V220`.
- `src/village-wallet-1.tsx` becomes module `VillageWallet1`.
- `src/village-wallet.ts` becomes module `VillageWalletTs`.

Where versions share the same text, the concept is defined once, in a
shared module:

- `Common`: Option/Result, the JavaScript truthiness of an optional
  string, prefix, suffix and hex predicates, and ASCII lower-casing.
- `CardSecret`: the passphrase `{serial}-PIN{pin}-SECURE` and the three
  checks applied to the decrypted key:
  - strict `^0x[0-9a-fA-F]{64}$`;
  - loose, length of at least 60;
  - unprefixed, length of at least 32.
- `Failover`: `filter(Boolean)` over the endpoint slots, and the
  first-responder search behind every `getProvider` loop.
- `Gas`: `estimateOptimalGas`:
  - 110 % safety margin with truncating division;
  - fallback bases of 21000 and 65000;
  - the oracle → EIP-1559 → legacy ladder;
  - the fee fields attached to a request.
- `Transfer`: the transaction request, the answers of the chain and the
  error kinds.
- `CardPayload`: the NFC Forum Text record (three header bytes), the
  JSON-or-`key|name` card parse, and `tag.id || 'UNKNOWN'`.
- `Checkout`: the checks of v.2.4.16's `prepareTransaction`, which are
  word for word those of v2.4.8's `handleSendPayment`.
- `SimpleSend`: the older versions' owner check and ERC-20 branch, at the
  node's legacy gas price.
- `Prices`: the stablecoin defaults.

Library calls are inputs of the model:

- `aes(ciphertext, passphrase)`: CryptoJS AES plus UTF-8 decoding. `None`
  means it throws.
- `derive(key)` (strict versions) and `wallet(key)` (older versions): the
  address ethers derives from a key. `wallet` gives `None` when ethers
  refuses the key.
- `Chain`, the answers of the network, each `None` when the call throws:
  - `up(url)`: whether an endpoint answers `getBlockNumber` in time;
  - the coin and token balances, the gas estimate, the gas oracle quote,
    `getFeeData` and `getGasPrice`;
  - `submit(tx)`: the send followed by `wait()`.
- `units(amount, decimals)`: `parseUnits`, where `parseEther` is decimals
  18. `None` means it throws.
- `json(text)`: `JSON.parse` of the card text. `None` means it throws.
- `isAddress` and `resolveName`: ethers' address check and the ENS lookup.

Amounts are wei as naturals; BigNumber `div` truncates, as `/` on naturals
does here. Prices are reals.

State that the source changes in place is held by classes:

- The key handler of v.2.4.16 keeps its key in an `array` of bytes.
  `ClearKey` zeroes the array in a loop, then drops it.
- The payment screens and the price board hold the React state the
  handlers assign.
- The connection of village-wallet-1 holds the provider, the connection
  flag and the NFC flag.

The endpoint loops, the network sweep, the CoinGecko entry loop and the
Binance/Coinbase pair loops are methods with `while` loops. Each loop is
proved against a function that specifies it.

## Model

| member | source | states |
|---|---|---|
| CardSecret.Passphrase | src/village-wallet-1.tsx:385-387 | the passphrase starts with the serial, ends in `-SECURE`, and is 11 characters longer than serial and PIN together |
| CardSecret.PassphraseRoundTrip | src/village-wallet.ts:150-152 | for a digit PIN, serial and PIN can be read back out of the passphrase, so nothing is lost |
| CardSecret.PassphraseInjective | src/village-wallet.ts:150-152 | two different (serial, digit PIN) pairs never give the same passphrase |
| CardSecret.WithHexPrefix | src/v.2.4.16.tsx:1012-1015 | `0x` is added exactly when it is missing |
| CardSecret.DecryptStrict | src/v.2.4.16.tsx:1007-1024 | a key comes back only when it matches `^0x[0-9a-fA-F]{64}$` and the plaintext is that key with or without its `0x`; success happens exactly when the plaintext, prefixed, has that shape; every failure is the single Invalid PIN |
| CardSecret.DecryptStrictRoundTrip | src/v2.4.8.tsx:798-815 | a 64-hex-digit key stored under this serial and PIN, with or without `0x`, decrypts to itself prefixed with `0x` |
| CardSecret.DecryptStrictRejectsShort | src/village-wallet-v2.4.0.tsx:213-230 | a plaintext shorter than 64 characters is always Invalid PIN |
| CardSecret.DecryptLoose | src/village-wallet-1.tsx:389-407 | the result starts with `0x`, is at least 60 long and is the plaintext with or without `0x`; a library throw and a short plaintext alike give Invalid PIN |
| CardSecret.StrictImpliesLoose | src/village-wallet.ts:154-172 | every key the strict check accepts is accepted by the loose check with the same value |
| CardSecret.LooseAcceptsNonKey | src/village-wallet-1.tsx:399-401 | sixty non-hex characters pass the loose check but fail the strict one |
| CardSecret.DecryptUnprefixed | src/village-wallet-v2.2.0.tsx:557-564 | the plaintext is returned unchanged when it has at least 32 characters; a library throw is a distinct error; a shorter plaintext is Invalid PIN |
| Failover.Configured | src/v.2.4.16.tsx:1028 | the endpoints kept are exactly the set, non-empty slots, and none are added |
| Failover.ConfiguredSingle | src/v.2.4.16.tsx:1028 | one slot gives its URL when it is set and non-empty, and nothing otherwise |
| Failover.ConfiguredAppend | src/v.2.4.16.tsx:1028 | the filter of two slot lists joined is the two filters joined, so the endpoints keep the slot order and each slot contributes on its own (with ConfiguredSingle this pins the filter down completely) |
| Failover.ConfiguredAllSet | src/v.2.4.16.tsx:1028 | with every slot set, the filter keeps all endpoints in order |
| Failover.FirstResponder | src/v2.4.8.tsx:817-832 | the position found answers, no earlier one does, and there is none exactly when no endpoint answers |
| Failover.FirstResponderUnique | src/village-wallet-v2.4.0.tsx:232-247 | the first endpoint that answers is the one the failover finds |
| Failover.GetProvider | src/v.2.4.16.tsx:1026-1041 | the loop returns the first responder, having probed exactly the endpoints up to it; it fails only after probing them all; the same loop serves the nine slots of src/village-wallet-v2.2.0.tsx:239-284 |
| Gas.SafeGasLimit | src/v.2.4.16.tsx:1290 | the limit is at least the estimate and is `floor(estimate × 110 / 100)` |
| Gas.EstimateOptimalGas | src/v.2.4.16.tsx:1267-1337 | the limit is 110 % of the estimate or of the 21000/65000 fallback; an oracle quote gives legacy at that price; otherwise both fee-market fields give eip1559 at maxFeePerGas; otherwise the node price gives legacy; totalCost = limit × price; the call fails exactly when neither fee data nor the node price can be had |
| Gas.FallbackLimits | src/v2.4.8.tsx:1040-1051 | without an estimate, a plain transfer gets 23100 gas and a token transfer gets 71500 |
| Gas.SafeGasLimitMonotone | src/v2.4.8.tsx:1051 | a larger estimate never gives a smaller limit |
| Gas.TxFeeFields | src/v2.4.8.tsx:1133-1139 | a request carries the fee-market fields exactly when the strategy is eip1559, and otherwise the gas price |
| CardPayload.PayloadText | src/v2.4.8.tsx:887-888 | the text is the payload after its three header bytes, one character per byte |
| CardPayload.PayloadTextRoundTrip | src/v.2.4.16.tsx:1108-1109 | whatever the three header bytes, the text written after them is read back unchanged |
| CardPayload.IndexOf | src/v2.4.8.tsx:895 | the first position of the separator, and none exactly when it is absent |
| CardPayload.SplitJoin | src/v2.4.8.tsx:895 | splitting `key|name` on the bar gives back the key and the name |
| CardPayload.SplitNoBar | src/v2.4.8.tsx:895 | text without a bar is all key and no name |
| CardPayload.TagSerial | src/v2.4.8.tsx:896 | the serial is the tag id when it is truthy, otherwise exactly 'UNKNOWN' |
| CardPayload.ParseTag | src/v2.4.8.tsx:886-901 | no payload is the only error; parsable JSON is the card; any other text gives a card with no address, the tag serial, a key that is the text before the first bar (all of it when there is none) and a name that is the non-empty text between the first and the second bar |
| CardPayload.ParseTagSplitCard | src/v.2.4.16.tsx:1110-1117 | a non-JSON `key|name` card reads back as that key and name, with the tag serial and no address |
| CardPayload.CipherText | src/v.2.4.16.tsx:1347 | the ciphertext is `encPrivKey` when it is truthy, else `ekey` |
| CardPayload.SerialText | src/v.2.4.16.tsx:1009 | a present serial is used as it is in the passphrase, and a missing one is the text 'undefined' |
| Checkout.PlanPayment | src/v.2.4.16.tsx:1361-1481 | a coin payment goes out only when the balance covers amount + totalCost, and is refused with the exact shortfall otherwise; a token payment is refused first for a missing contract, then for the token balance, then for the coin balance against totalCost; the request carries the estimate's limit and fee fields |
| Checkout.NativeRefusedIff | src/v.2.4.16.tsx:1364-1377 | once amount, estimate and balance are known, a coin payment is accepted exactly when balance ≥ amount + totalCost, so equality passes |
| Checkout.TokenBalanceCheckedFirst | src/v2.4.8.tsx:1153-1171 | too few tokens is reported as the token shortfall, whatever the estimate and the coin balance |
| Checkout.PlanFeeFields | src/v2.4.8.tsx:1173-1179 | a planned request carries fee-market fields exactly for eip1559, the gas price otherwise, and always the estimate's gas limit |
| Checkout.DecryptCard | src/v2.4.8.tsx:1108 | the strict key from `encPrivKey || ekey` under the card's serial and the PIN; a missing ciphertext is Invalid PIN |
| Checkout.CheckPayment | src/v2.4.8.tsx:1100-1171 | missing input exactly when card, PIN or amount is absent; no provider exactly when no endpoint answers; wrong PIN exactly when the strict decryption fails; once those pass, the payment is prepared exactly when the checks for the derived wallet pass, and a refusal of those checks comes back unchanged; on success, the key is the card's strict key |
| Checkout.FilledCard | src/v2.4.8.tsx:1110-1113 | a missing card address is filled in with the wallet's, and nothing else changes |
| SimpleSend.OwnerCheck | src/village-wallet-1.tsx:456-458 | the key passes exactly when the card has an address equal to the wallet's, ignoring letter case; an absent address is its own error |
| SimpleSend.ShortOfFunds | src/village-wallet.ts:201-211 | the refusal carries balance, amount, fee and a positive shortfall with balance + shortfall = amount + fee |
| SimpleSend.TokenSend | src/village-wallet-v2.2.0.tsx:603-633 | unsupported exactly when the token has no contract address; success only when the token balance covers the amount and the coin balance covers estimate × gas price; each refusal carries the figures that caused it; the `transfer` carries no gas options |
| SimpleSend.TokenSendIff | src/village-wallet-1.tsx:508-541 | with every answer in, a token payment goes out exactly when both balances suffice; too few tokens is reported before too little gas |
| SimpleSend.TokenSendOrderIrrelevant | src/village-wallet-1.tsx:519-520 | asking for the token balance before or after parsing the amount sends the same request |
| V2416.Chunks | src/v.2.4.16.tsx:26 | every chunk holds one or two characters |
| V2416.DecodeHex | src/v.2.4.16.tsx:25-27 | one byte per chunk |
| V2416.EncodeByte | src/v.2.4.16.tsx:32 | two hex digits per byte |
| V2416.EncodeHex | src/v.2.4.16.tsx:31-34 | two hex digits per byte, all hex |
| V2416.CleanKey | src/v.2.4.16.tsx:24 | a leading `0x` is dropped, and otherwise the key is unchanged |
| V2416.LowerHexOfValue | src/v.2.4.16.tsx:32 | a hex digit's value is written back as that digit in lower case |
| V2416.ParseTwoHexDigits | src/v.2.4.16.tsx:26 | `parseInt` of two hex digits is their base-16 value |
| V2416.ChunkOfTwoHexDigits | src/v.2.4.16.tsx:25-27 | a two-digit chunk is stored as its value and encodes back to its lower-case digits |
| V2416.EncodeDecodeHex | src/v.2.4.16.tsx:23-35 | even-length hex text stored by `setKey` comes back from `getKey` as its lower-case form |
| V2416.DecodeEncodeHex | src/v.2.4.16.tsx:30-35 | any byte buffer survives the trip through its hex text |
| V2416.StrictKeyIs32Bytes | src/v.2.4.16.tsx:23-27 | a strictly checked key fills a 32-byte buffer |
| V2416.SecureKeyHandler.constructor | src/v.2.4.16.tsx:21 | a new handler holds no buffer |
| V2416.SecureKeyHandler.SetKey | src/v.2.4.16.tsx:23-28 | a fresh buffer holds the decoded bytes; for even-length hex, with or without `0x`, `hasKey` holds and `getKey` gives `0x` plus the lower-case hex |
| V2416.SecureKeyHandler.GetKey | src/v.2.4.16.tsx:30-35 | fails exactly when nothing is held; otherwise gives `0x` and two digits per byte that decode back to the buffer |
| V2416.SecureKeyHandler.ClearKey | src/v.2.4.16.tsx:37-42 | every byte of the held buffer is zero before the buffer is dropped; with nothing held it changes nothing |
| V2416.NewHandlerIsEmpty | src/v.2.4.16.tsx:21-31 | a new handler has no key and `getKey` refuses |
| V2416.PreparedKeyIsTheCardKey | src/v.2.4.16.tsx:1347-1349 | a prepared payment's key is the card's ciphertext decrypted under its serial and PIN, and fills 32 bytes |
| V2416.PaymentSession.ReadCard | src/v.2.4.16.tsx:1091-1136 | the result is the payload parse, and a card read becomes the current card |
| V2416.PaymentSession.Unlock | src/v.2.4.16.tsx:1346-1355 | no provider or a wrong PIN leaves the handler empty and the card unchanged; success holds the strict key in the handler and fills a missing card address |
| V2416.PaymentSession.PrepareTransaction | src/v.2.4.16.tsx:1339-1491 | the outcome is `CheckPayment`'s; missing input changes nothing, the key bytes included; every other refusal leaves the handler empty and the pending request as it was; success leaves the plan pending and the key held |
| V2416.PaymentSession.ConfirmTransaction | src/v.2.4.16.tsx:1493-1536 | on every exit the held bytes are zeroed, the handler emptied and nothing left pending; it refuses when nothing is pending or no key is held; success submits the pending request and clears the PIN; conversely, with a plan pending and a key held, the result is the submission's hash when the selection matches the plan's kind and the submission succeeds, and a submission failure otherwise |
| V2416.PaymentSession.CancelTransaction | src/v.2.4.16.tsx:1538-1544 | the held bytes are zeroed and dropped, nothing stays pending, card and PIN are kept |
| V248.PaymentScreen.ReadCard | src/v2.4.8.tsx:882-906 | the result is the payload parse, and a card read becomes the current card |
| V248.PaymentScreen.HandleSendPayment | src/v2.4.8.tsx:1100-1196 | the outcome is `CheckPayment`'s followed by the submission of its request; a missing card address is filled in once the key is good; the PIN is cleared only on success |
| V248.SentRequestFeeFields | src/v2.4.8.tsx:1133-1139 | the request sent carries the estimate's gas limit and the fee fields of its strategy |
| V240.TruthyIds | src/village-wallet-v2.4.0.tsx:261 | exactly the non-empty ids offered |
| V240.AsOptions | src/village-wallet-v2.4.0.tsx:261 | each id, in order, as a present value |
| V240.KeepFirstContents | src/village-wallet-v2.4.0.tsx:261 | the filter keeps exactly the non-empty ids, each once |
| V240.PriceIdsShape | src/village-wallet-v2.4.0.tsx:261 | the id list has no duplicates and holds exactly the non-empty ids of the network and the tokens, the network's first when present |
| V240.KeepFirstHead | src/village-wallet-v2.4.0.tsx:261 | a truthy first id stays first |
| V240.UsdForContents | src/village-wallet-v2.4.0.tsx:267 | an id is priced exactly when it was asked for and the answer gives it a non-zero `usd`, at that price |
| V240.PriceBoard.constructor | src/village-wallet-v2.4.0.tsx:188-190 | no prices, no source, not loading |
| V240.PriceBoard.FetchPrices | src/village-wallet-v2.4.0.tsx:258-276 | a failed request installs exactly the three stablecoins at 1.0 with source 'Stablecoin defaults'; an answer installs the prices of the deduplicated ids with source 'CoinGecko'; loading ends |
| V240.GasLimit | src/village-wallet-v2.4.0.tsx:439-456 | an estimate gives `floor(est × 120 / 100)`, raised to 30000 on arbitrum; without one, 100000 on arbitrum, optimism and base, else 21000 |
| V240.GasLimitMonotone | src/village-wallet-v2.4.0.tsx:447-450 | a larger estimate never gives a smaller limit on any network |
| V240.NativeSend | src/village-wallet-v2.4.0.tsx:434-462 | a coin payment goes out only when the balance covers amount + gas price × limit, with that limit and price on the request; a refusal carries the shortfall |
| V240.NativeSendIff | src/village-wallet-v2.4.0.tsx:458-460 | with every answer in, the payment goes out exactly when the balance covers amount + gas price × limit |
| V240.Payment | src/village-wallet-v2.4.0.tsx:434-485 | the branch for the currency never reports missing input, a missing provider or a wrong PIN |
| V240.CheckSend | src/village-wallet-v2.4.0.tsx:419-479 | missing input, no provider and wrong PIN each happen exactly in their case; success is the strict key's wallet passing the branch's checks; once the decryption succeeds, the branch's request is returned when its checks pass and its refusal comes back unchanged otherwise |
| V240.PaymentScreen.HandleSendPayment | src/village-wallet-v2.4.0.tsx:419-490 | the outcome is `CheckSend`'s followed by the submission; a missing card address is filled in once the key is good; the PIN is cleared only on success |
| V220.Probed | src/village-wallet-v2.2.0.tsx:315-328 | the endpoints probed are a prefix of the list, all failing except possibly the last, which answers exactly when some endpoint does |
| V220.ProbeNetwork | src/village-wallet-v2.2.0.tsx:315-328 | the loop reports connected exactly when some endpoint answers, having probed just up to the first responder |
| V220.TestAllNetworks | src/village-wallet-v2.2.0.tsx:295-337 | every network gets a status, which is true exactly when one of its endpoints answers; the probes are those of each network in turn |
| V220.UsdPricesKeys | src/village-wallet-v2.2.0.tsx:429-433 | a coin is priced exactly when some entry for it carries `usd` |
| V220.UsdPricesValue | src/village-wallet-v2.2.0.tsx:429-433 | with distinct ids, each price is the one its entry gives |
| V220.GeckoPricesAnswered | src/village-wallet-v2.2.0.tsx:426-435 | CoinGecko counts exactly when it answers and prices at least one coin |
| V220.FetchFromCoinGecko | src/village-wallet-v2.2.0.tsx:411-436 | the entry loop computes the CoinGecko price map |
| V220.QuoteOr | src/village-wallet-v2.2.0.tsx:449-454 | a present non-zero quote is used, otherwise the default |
| V220.CryptoComparePrices | src/village-wallet-v2.2.0.tsx:438-456 | an answer always prices exactly the six coins, with non-zero stablecoins, each value the quote or its default |
| V220.SeededKeys | src/village-wallet-v2.2.0.tsx:458-483 | a coin is priced exactly when it is a stablecoin or an answered pair's coin |
| V220.SeededKeepsStable | src/village-wallet-v2.2.0.tsx:485-510 | a stablecoin no pair writes keeps its price of 1 |
| V220.SeededCount | src/village-wallet-v2.2.0.tsx:481 | at least four prices exactly when a pair for a non-stable coin answered |
| V220.PairPricesAnswered | src/village-wallet-v2.2.0.tsx:508 | Binance or Coinbase counts exactly when one of its pairs answers, with the stablecoins at 1 |
| V220.FetchPairs | src/village-wallet-v2.2.0.tsx:458-483 | the pair loop computes the Binance or Coinbase price map |
| V220.PriceChain | src/village-wallet-v2.2.0.tsx:343-409 | the first service with prices wins, unmerged; CoinGecko's map exactly when it answers; CryptoCompare's map exactly when CoinGecko fails and CryptoCompare answers; Binance's map exactly when both fail and a Binance pair answers; Coinbase's map exactly when those three fail and a Coinbase pair answers; otherwise stablecoins are priced non-zero; when no service answers, the source is 'Fallback (No API)' and the prices are exactly tether, usd-coin and dai at 1 and ethereum, matic-network and binancecoin at 0 |
| V220.CryptoCompareShadowsPairs | src/village-wallet-v2.2.0.tsx:359-367 | while CryptoCompare answers, Binance and Coinbase are never used |
| V220.PriceBoard.constructor | src/village-wallet-v2.2.0.tsx:208-212 | no prices, no source, not loading |
| V220.PriceBoard.FetchPrices | src/village-wallet-v2.2.0.tsx:343-409 | the prices and source installed are those of the chain, and loading ends |
| V220.ValidateCard | src/village-wallet-v2.2.0.tsx:538-549 | no payload, unparsable text and a card lacking addr, ekey or serial are each refused exactly in their case; otherwise the card is the parsed JSON |
| V220.ValidCardParsesAlike | src/village-wallet-v2.2.0.tsx:542-544 | a card this version accepts is read the same by the later versions' parse |
| V220.NfcReader.constructor | src/village-wallet-v2.2.0.tsx:203 | no card has been read |
| V220.NfcReader.ReadCard | src/village-wallet-v2.2.0.tsx:533-555 | the result is the card check, a valid card becomes the current card, and a refused one leaves the current card unchanged |
| V220.NativeSend | src/village-wallet-v2.2.0.tsx:586-602 | a coin payment goes out only when the balance covers amount + gas price × 21000, with limit 21000 and that price on the request; a refusal carries the shortfall |
| V220.NativeSendIff | src/village-wallet-v2.2.0.tsx:593-595 | with every answer in, the payment goes out exactly when balance ≥ amount + gas price × 21000 |
| V220.SendTransaction | src/village-wallet-v2.2.0.tsx:581-634 | no provider and a wrong PIN each happen exactly in their case; success means the plaintext key of at least 32 characters, its wallet, and the currency branch's request submitted; conversely, with a provider, a decrypted key and its wallet, a branch refusal comes back unchanged, a failed submission is its own error, and otherwise the receipt of the submitted request is returned |
| VillageWallet1.Connection.constructor | src/village-wallet-1.tsx:164-173 | no provider, not connected, NFC off |
| VillageWallet1.Connection.SearchProvider | src/village-wallet-1.tsx:202-236 | connected exactly when some endpoint answers; the provider installed is the first responder, or the last endpoint tried when all fail |
| VillageWallet1.Connection.UpdateProvider | src/village-wallet-1.tsx:191-245 | no selected network changes nothing; an unknown network disconnects; otherwise connected exactly when a configured endpoint answers, the first to answer installed as provider, the last configured one installed when none answers, and the provider kept when none is configured |
| VillageWallet1.Connection.InitializeApp | src/village-wallet-1.tsx:247-306 | connected exactly when one of polygon's configured endpoints answers, with the first to answer installed as provider, the last configured one when none answers, and the provider kept when none is configured; NFC is on when supported and off when its start-up throws |
| VillageWallet1.GetTokenBalance | src/village-wallet-1.tsx:348-372 | the coin or token balance in its decimals; '0.00' exactly when the token has no address here or the lookup throws |
| VillageWallet1.ResolveNameOrAddress | src/village-wallet-1.tsx:417-447 | an address stands for itself; a `.eth` name becomes its resolved address and stays the display name; an unresolved name and any other input are refused, each exactly in its case |
| VillageWallet1.ResolveThenAddress | src/village-wallet-1.tsx:420-438 | a name that resolves to an address yields the same address as entering that address directly |
| VillageWallet1.NativeSend | src/village-wallet-1.tsx:475-506 | a coin payment goes out only when the balance covers amount + gas price × 21000, with limit 21000 and no gas price on the request; a refusal carries the shortfall |
| VillageWallet1.NativeSendIff | src/village-wallet-1.tsx:484-491 | with every answer in, the payment goes out exactly when balance ≥ amount + gas price × 21000 |
| VillageWallet1.SendTransaction | src/village-wallet-1.tsx:449-473 | any decryption failure is the one wrong-PIN error; a key whose address is not the card's is refused before anything else; success submits the currency branch's request; conversely, with a decrypted key whose wallet is the card's, a branch refusal comes back unchanged, a failed submission is its own error, and otherwise the receipt of the submitted request is returned |
| VillageWallet1.MismatchAsksNothing | src/village-wallet-1.tsx:453-458 | an owner mismatch is reported whatever the chain would answer |
| VillageWalletTs.PaymentCosts | src/village-wallet.ts:186-193 | gasCost = gas price × 21000 and totalCost = amount + gasCost |
| VillageWalletTs.SendTransaction | src/village-wallet.ts:174-233 | any decryption failure is the one wrong-PIN error; success needs the card's own key and balance ≥ totalCost, and submits exactly recipient, amount, 21000 and the gas price; a refusal carries shortfall = totalCost − balance; conversely, once the card's own key is unlocked and balance ≥ totalCost, the receipt of that request is returned when the submission succeeds and a submission failure otherwise |
| VillageWalletTs.RefusedIff | src/village-wallet.ts:201-211 | once the key and every answer are in, the payment is refused exactly when balance < totalCost, so equality passes |
| VillageWalletTs.MerchantSettings.constructor | src/village-wallet.ts:63 | no merchant address, home screen |
| VillageWalletTs.MerchantSettings.SaveMerchantAddress | src/village-wallet.ts:239-249 | an invalid address returns false and changes nothing; a valid one is stored, the home screen shown and true returned |

## Left out

- The user interface: every screen, the preview modal, styles, translations, `Alert` and `console`. Only the kind of each error is modelled, not its text.
- The `NETWORKS`, `TOKENS` and `CONFIG` tables. The endpoint slots, a token's contract address and decimals, and the network key are parameters.
- Timeouts, `Promise.race`, intervals, `useEffect` and the NFC session calls. An endpoint that times out is one for which `up` is false. A scan that times out is a tag without payload.
- Floating point: the gwei average of the gas oracle, `calculateUSD`, `getTokenPrice` and the USD preview fields. The oracle's answer is given already in wei, or as unparsable. Prices are reals, and NaN is not represented.
- `JSON.parse` of a text that is valid JSON but not an object. `json` gives the card record directly.
- The CoinGecko request of v2.2.0, which asks for a fixed id list. Only the answer is modelled.
- `resolveENS`, `getAllTokenBalances`, `checkBalance`, `initiatePayment`, `saveMerchantAddress` and `setMerchantAddressFromCard` of the versions other than village-wallet.ts. They are outside the payment pipeline.
- The transaction preview data of v.2.4.16 and the loading flags, except the price boards' `loading`.
- V2416.PaymentSession.PrepareTransaction, V2416.PaymentSession.Unlock, V248.PaymentScreen.HandleSendPayment, V240.CheckSend, V240.PaymentScreen.HandleSendPayment and Checkout.CheckPayment: the strict key is assumed to be accepted by ethers' `Wallet` constructor (`derive` is total). Such a key could only be refused if it were zero or not below the curve order.
- VillageWallet1.ResolveNameOrAddress: does not model the `loading` flag it sets around the lookup.
- VillageWallet1.ResolveNameOrAddress: a `resolveName` call that throws is reported as an unresolved name. The source instead lets the library's error propagate to the caller (src/village-wallet-1.tsx:427, 443-445). Both paths end in a refused recipient, but the error text differs.
- CardPayload.SerialText: a card whose JSON holds `"serial": null` would be rendered as "null" by the source; the model folds an explicit null into the missing serial, which is rendered "undefined".
- V220.NfcReader: the NFC session itself (`requestTechnology`, `cancelTechnologyRequest`) is not modelled, because it is a call into the NFC library; the class keeps only the card the reader accepted.
- VillageWallet1.Connection.UpdateProvider: the outer `catch` of `updateProvider` is reached only by a missing network entry, which is the `None` slots case. Nothing else in the block can throw once probing is an input.
- VillageWallet1.Connection.InitializeApp: the outer `catch` of `initializeApp` is not modelled, because nothing inside it throws once probing and NFC start-up are inputs.
- V220.SendTransaction, VillageWallet1.SendTransaction and VillageWalletTs.SendTransaction: the `gasCost` returned is the fee in wei. Its `formatEther` text is not modelled.

## Observations

Behaviours the proofs make explicit. None is a bug in the sense of an unintended result, so they are not listed as findings:

- `V220.CryptoCompareShadowsPairs`: `fetchPricesFromCryptoCompare` always returns six keys (a missing quote becomes 0 or 1.00). So whenever CryptoCompare answers, Binance and Coinbase are never consulted, even when every volatile price is 0.
- `CardSecret.LooseAcceptsNonKey`: the length-60 check of village-wallet-1 and village-wallet.ts accepts text that is not a key. Those versions rely on the owner check (`SimpleSend.OwnerCheck`) to catch a wrong PIN.
- `V2416.SecureKeyHandler.SetKey` replaces a held buffer without zeroing it first. Only `ClearKey` zeroes.
- `V2416.PaymentSession.PrepareTransaction` keeps the key in the handler, but the pending wallet built from the same key also holds it. The handler's zeroing therefore does not remove every copy.
- `VillageWallet1.NativeSend` sends a coin payment with a gas limit but no gas price, so the fee charged is the library's choice, not the price checked against the balance.
