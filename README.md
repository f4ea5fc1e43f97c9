# mangrove.js core, modelled in Dafny

This project models three parts of the mangrove.js client library and proves
what they promise.

- **Trade reconciliation** (`src/util/tradeEventManagement.ts`). This folds the
  ordered events of one trade transaction into an order result. The result
  holds per-offer successes, trade failures and posthook failures, the offer
  writes with the side they belong to, a summary (the last terminal event
  wins) and an optional resting order.
- **Market dispatcher and helpers** (`src/market.ts`).
  - The subscription table: `subscribe`, `once`, `unsubscribe` and the
    dispatch of one book event to every subscription.
  - The one-shot `initialize`, and `close`, `getBook`, `getSemibook` and
    `requestBook`, which throw before initialisation.
  - The static side, price and volume helpers, the gas formulas, the
    volume-estimate routing and the minimum price difference.
- **Provisioning and registries** (`src/mangrove.ts`).
  - Offer provisions and missing provision.
  - Base/quote ordering of a token pair by "cashness".
  - The static address registry.

Modelling choices:

- Token amounts are exact rationals (`real`). `Common.FromUnits(raw, d)` is
  `raw / 10^d`.
- JavaScript's insertion-ordered `Map` and string-keyed objects are
  `OrderedMap.Table`, a sequence of entries.
  - `Set` replaces a present key in place or appends a new one.
  - `Delete` cuts one entry out.
- A thrown error is an `Err` or a `Fail` carrying the source's message.
- The mutable parts of the source are classes:
  - `Market.Market` holds the subscription table, the pending initialiser
    and the two side caches.
  - `TradeEventManagement.OrderResult` holds the result that the event
    handlers update in place.
  - `Mangrove.Registry` holds the per-network address tables and the
    cashness table.
- Each handler method is proved against a pure step function, and each
  processing loop against a fold of that step. The fold's properties are
  proved as lemmas.
- The side caches (`Semibook`) are not part of this model. A cache is
  represented by its side, the options it was connected with, and whether
  it still listens to events.
- Callbacks are keys. Running a callback is a function parameter.

## Model

| member | source | states |
|---|---|---|
| Common.FromUnits | src/util/tradeEventManagement.ts:46-47 | a raw amount divided by 10^decimals: multiplying back gives the raw amount, and a non-negative raw amount gives a non-negative value |
| Common.UnitsRoundTrip | src/util/tradeEventManagement.ts:46-47 | converting raw units to display units and back returns the raw amount |
| Common.FromUnitsInjective | src/util/tradeEventManagement.ts:46-47 | two distinct raw amounts never convert to the same display amount |
| OrderedMap.Set | src/market.ts:866-868 | a map `set` on a present key replaces its value in place; on a new key it appends the entry at the end; keys stay unique |
| OrderedMap.Delete | src/market.ts:887-889 | a map `delete` removes the key's entry, keeps every other entry in its order, and leaves a map without the key unchanged |
| OrderedMap.SetGet | src/market.ts:866-868 | after a map `set`, the key reads back as the new value and every other key reads as before |
| OrderedMap.DeleteGet | src/market.ts:887-889 | after a map `delete`, the key is absent and every other key reads as before |
| Market.OutboundInboundSwap | src/market.ts:900-912 | asks send base for quote, bids send quote for base, and switching side swaps the pair |
| Market.GetBaseQuoteVolumes | src/market.ts:915-925 | for asks the base volume is gives and the quote volume wants; for bids the base volume is wants and the quote volume gives |
| Market.GetPrice | src/market.ts:927-934 | the price is absent exactly when the base volume is at most 0; otherwise price times base volume equals quote volume |
| Market.GetWantsForPrice | src/market.ts:937-940 | throws the big.js division-by-zero error exactly for bids at price 0 |
| Market.GetGivesForPrice | src/market.ts:942-945 | throws the big.js division-by-zero error exactly for asks at price 0 |
| Market.WantsForPriceIsAtPrice | src/market.ts:927-940 | an offer whose wants come from a price and a positive base volume has exactly that price |
| Market.GivesForPriceIsAtPrice | src/market.ts:927-945 | an offer whose gives come from a price and a positive base volume has exactly that price |
| Market.WantsGivesRoundTrip | src/market.ts:937-945 | for a non-zero price, computing gives from the wants computed from gives returns the original gives |
| Market.GetGivesWantsForVolumeAtPrice | src/market.ts:947-959 | the returned gives and wants have base volume `volume` and quote volume `volume * price` on either side |
| Market.VolumeAtPriceIsAtPrice | src/market.ts:927-959 | for a positive volume, the gives and wants built for a price have that price |
| Market.IsLiveOffer | src/market.ts:458-463 | an offer is live exactly when, read as an ask, it has a price, that is when it gives something |
| Market.LiveAskHasPrice | src/market.ts:458-463 | a live ask (gives > 0) always has a price, and that price times gives equals wants |
| Market.IsActive | src/market.ts:448-451 | a market is active exactly when both offer lists are active |
| Market.EstimateGas | src/market.ts:696-717 | never above 10,000,000; exactly the cap at zero density; otherwise the smaller of the cap and (gas base + volume / density + gasreq + gasreq·64/63)·11/10, which is at least gas base + volume / density + twice the gas requirement |
| Market.EstimateGasMonotone | src/market.ts:696-717 | a larger volume never gives a smaller gas estimate |
| Market.SimulateGas | src/market.ts:725-749 | the simulated gas times 15/10 rounded down when that is below the cap, and the cap otherwise |
| Market.EstimateVolumeBook | src/market.ts:765-776 | the asks book is used exactly for (base, buy) and (quote, sell) |
| Market.EstimateVolumeBookSendsWhatTakerReceives | src/market.ts:765-776 | the book chosen is the one whose offers send the token the taker receives |
| Market.EstimateVolumeToReceive | src/market.ts:779-783 | estimates as a sell of the given amount of the given token |
| Market.EstimateVolumeToSpend | src/market.ts:786-790 | estimates as a buy of the given amount of the given token |
| Market.ReceiveAndSpendUseOppositeBooks | src/market.ts:765-790 | receiving and spending the same token consult opposite books |
| Market.MinPriceDifference | src/market.ts:970-1001 | none exactly when no two adjacent prices differ; otherwise the smallest absolute difference between adjacent defined prices that differ, which is positive |
| Market.DisplayedPrices | src/market.ts:961-966 | the asks in order followed by the bids in reverse order |
| Market.GetSemibookOpts | src/market.ts:326-356 | precedence: a desired volume for this side (carrying the options' volume and direction, or none when the options have none), then a desired price, then a maximum number of offers; the chunk size always passes through |
| Market.SurvivorsExact | src/market.ts:376-404 | after dispatch a subscription remains exactly when it is not a `once` whose filter the event satisfies |
| Market.InvokedExact | src/market.ts:376-404 | a callback runs exactly when it is persistent, or a `once` whose filter is absent or satisfied |
| Market.ResolvedAreRemoved | src/market.ts:376-404 | every resolved `once` is removed, the removed and the surviving entries add up to the table, and keys stay unique |
| Market.ResolvedKeysIn | src/market.ts:376-404 | every resolved key is a `once` entry of the table that the event satisfies |
| Market.SurvivorsUnique | src/market.ts:376-404 | dispatch keeps every callback subscribed at most once |
| Market.SurvivorsResolvedSize | src/market.ts:376-404 | every entry of the table either stays or is settled |
| Market.Market.Connect | src/market.ts:263-301 | starts with no subscriptions; without `noInit` both side caches are connected with their options; with `noInit` the initialiser is kept for later |
| Market.Market.Initialize | src/market.ts:316-324 | the first call connects both side caches; a second call throws "Cannot initialize already initialized market." and changes nothing |
| Market.Market.Close | src/market.ts:303-314 | throws "Market is not initialized" before initialisation; otherwise both caches stop listening |
| Market.Market.GetBook | src/market.ts:414-425 | the market's own asks and bids caches once initialised, otherwise the "not initialized" error |
| Market.Market.GetSemibook | src/market.ts:427-432 | the market's own cache of the requested side once initialised, otherwise the "not initialized" error |
| Market.Market.RequestBook | src/market.ts:434-446 | the market's own asks and bids caches, asks first, each queried with the same options; before initialisation the "not initialized" error |
| Market.Market.Subscribe | src/market.ts:866-868 | the callback becomes a persistent subscription and no other subscription changes |
| Market.Market.Once | src/market.ts:873-885 | the callback becomes a one-shot subscription with its filter and no other subscription changes |
| Market.Market.Unsubscribe | src/market.ts:887-889 | the callback's subscription is removed and no other subscription changes |
| Market.Market.SemibookEventCallback | src/market.ts:376-404 | walks the table in insertion order: runs the callbacks of `InvokedExact`, resolves and removes the satisfied one-shots, and keeps the rest |
| TradeEventManagement.RawIdToId | src/util/tradeEventManagement.ts:67-70 | a raw id of 0 becomes absent, any other id stays the same |
| TradeEventManagement.RawOfferToOffer | src/util/tradeEventManagement.ts:39-65 | throws "Offer ID is 0" exactly for id 0; a prev of 0 becomes absent; gives and wants are in display units; volume and price follow the side's base volume and price |
| TradeEventManagement.RawAskHasPrice | src/util/tradeEventManagement.ts:39-65 | a raw ask with a non-zero id that gives something converts to an offer with a price and a positive volume |
| TradeEventManagement.PartialFill | src/util/tradeEventManagement.ts:225-232 | with fillWants, got-with-fee below wants; otherwise gave below gives |
| TradeEventManagement.CreateSummaryFromEvent | src/util/tradeEventManagement.ts:72-101 | a missing fee counts as 0, and partialFill is decided on taker-got plus fee (with fillWants) or on taker-gave |
| TradeEventManagement.SummaryInDisplayUnits | src/util/tradeEventManagement.ts:72-101 | got and gave are in their tokens' units, and bounty and fee are in native (18-decimal) units |
| TradeEventManagement.CreateSummaryFromOrderCompleteEvent | src/util/tradeEventManagement.ts:102-112 | an OrderComplete summary is the summary of its taker-got, taker-gave, penalty and fee |
| TradeEventManagement.CreateSummaryFromOrderSummaryEvent | src/util/tradeEventManagement.ts:184-206 | an OrderSummary's bounty and fee play the role of OrderComplete's penalty and fee paid |
| TradeEventManagement.CreateSuccessFromEvent | src/util/tradeEventManagement.ts:114-125 | the offer id is kept, and got and gave are the taker's wants and gives in display units |
| TradeEventManagement.CreateTradeFailureFromEvent | src/util/tradeEventManagement.ts:127-139 | the offer id and reason are kept, and the undelivered and given amounts are in display units |
| TradeEventManagement.CreatePosthookFailureFromEvent | src/util/tradeEventManagement.ts:141-147 | the offer id and posthook reason are kept |
| TradeEventManagement.OfferWriteSide | src/util/tradeEventManagement.ts:149-179 | asks exactly when (outbound, inbound) is (base, quote); bids exactly when it is (quote, base) and not also (base, quote); none otherwise |
| TradeEventManagement.CreateOfferWriteFromEvent | src/util/tradeEventManagement.ts:149-182 | a write for another pair is skipped; a write on this pair is the raw-offer conversion of the written data on the resolved side, and throws exactly when its id is 0 |
| TradeEventManagement.FindOfferWrite | src/util/tradeEventManagement.ts:218-220 | the first collected write on the given side with the given id, or none when there is none |
| TradeEventManagement.CreateRestingOrderFromEvent | src/util/tradeEventManagement.ts:208-223 | when the owner is the taker and the offer id is not 0, the first collected write on the opposite side with that id becomes the resting order; with no such write, or another owner, the current resting order stays |
| TradeEventManagement.MangroveStep | src/util/tradeEventManagement.ts:234-300 | only the raw-offer conversion can throw; a step never touches the resting order and only appends offer writes |
| TradeEventManagement.OrderStep | src/util/tradeEventManagement.ts:302-342 | a MangroveOrder event never changes the success, failure or offer-write lists |
| TradeEventManagement.ForeignIsNoOp | src/util/tradeEventManagement.ts:245 | an event whose taker is set and differs from the sender leaves the result unchanged |
| TradeEventManagement.FoldIgnoresForeign | src/util/tradeEventManagement.ts:360-406 | folding a receipt's events gives the same result as folding only its own events |
| TradeEventManagement.StepErrIff | src/util/tradeEventManagement.ts:286-295 | a step throws exactly on an own offer write for this pair with offer id 0 |
| TradeEventManagement.FoldErrIff | src/util/tradeEventManagement.ts:360-382 | processing throws "Offer ID is 0" exactly when some event throws |
| TradeEventManagement.FoldAppend | src/util/tradeEventManagement.ts:360-382 | processing a concatenation processes the second part from where the first stopped, unless the first part threw |
| TradeEventManagement.MangroveFoldSuccesses | src/util/tradeEventManagement.ts:260-269 | the successes become the old successes followed by one per own OfferSuccess event, in receipt order |
| TradeEventManagement.MangroveFoldTradeFailures | src/util/tradeEventManagement.ts:270-279 | the trade failures become the old ones followed by one per own OfferFail event, in receipt order |
| TradeEventManagement.MangroveFoldPosthookFailures | src/util/tradeEventManagement.ts:280-285 | the posthook failures become the old ones followed by one per own PosthookFail event, in receipt order |
| TradeEventManagement.MangroveFoldOfferWrites | src/util/tradeEventManagement.ts:286-295 | the offer writes gain one entry per own write whose side resolves, in receipt order, and the resting order is untouched |
| TradeEventManagement.OrderFoldKeepsLists | src/util/tradeEventManagement.ts:302-342 | processing MangroveOrder events never throws and never changes the lists |
| TradeEventManagement.MangroveStepLists | src/util/tradeEventManagement.ts:260-285 | one Mangrove event extends each per-offer list by exactly its own entry, if any |
| TradeEventManagement.MangroveStepWrites | src/util/tradeEventManagement.ts:286-295 | one Mangrove event adds its own resolved offer write, if any, and leaves the resting order alone |
| TradeEventManagement.FoldSummary | src/util/tradeEventManagement.ts:250-259 | processing leaves the summary of the last own terminal event, or the initial summary when there is none |
| TradeEventManagement.FoldLastSummaryWins | src/util/tradeEventManagement.ts:250-259 | after processing, the summary is the one from the last own terminal event, or the initial one when there is none |
| TradeEventManagement.StepKeepsRestingOrderWritten | src/util/tradeEventManagement.ts:208-223 | one step keeps the resting order either absent or one of the collected offer writes |
| TradeEventManagement.FoldKeepsRestingOrderWritten | src/util/tradeEventManagement.ts:208-223 | after processing, the resting order is absent or one of the collected offer writes |
| TradeEventManagement.NewOwnedOfferSetsRestingOrder | src/util/tradeEventManagement.ts:208-223 | an own NewOwnedOffer event whose offer was written on the opposite side sets the resting order to the first such write |
| TradeEventManagement.IsOrderResult | src/util/tradeEventManagement.ts:408-412 | a result is an order result exactly when its summary is present |
| TradeEventManagement.FoldWithTerminalIsOrderResult | src/util/tradeEventManagement.ts:408-412 | processing a receipt with an own terminal event yields a complete order result |
| TradeEventManagement.EventsAt | src/util/tradeEventManagement.ts:348-355 | keeps exactly the events of logs emitted by the contract |
| TradeEventManagement.GetContractEventsFromReceipt | src/util/tradeEventManagement.ts:344-358 | uses the decoded events when the receipt's target is the contract and the raw logs otherwise, keeping exactly those the contract emitted |
| TradeEventManagement.EventsAtAppend | src/util/tradeEventManagement.ts:344-358 | filtering keeps receipt order: filtering a concatenation concatenates the filtered parts |
| TradeEventManagement.OrderResult.ResultOfMangroveEventCore | src/util/tradeEventManagement.ts:234-300 | applies one Mangrove event in place; on a throw the result is unchanged |
| TradeEventManagement.OrderResult.ResultOfMangroveOrderEventCore | src/util/tradeEventManagement.ts:302-342 | applies one MangroveOrder event in place |
| TradeEventManagement.OrderResult.ProcessMangroveEvents | src/util/tradeEventManagement.ts:360-382 | the result becomes the fold of the Mangrove contract's events; on a throw it keeps what the events before the throw did |
| TradeEventManagement.OrderResult.ProcessMangroveOrderEvents | src/util/tradeEventManagement.ts:384-406 | the result becomes the fold of the MangroveOrder contract's events |
| Mangrove.CalculateOfferProvision | src/mangrove.ts:578-585 | the provision is never negative |
| Mangrove.OfferProvisionInGwei | src/mangrove.ts:578-585 | in gwei, the provision is gas price times (gas requirement plus gas base) |
| Mangrove.OfferProvisionMonotone | src/mangrove.ts:578-585 | more gas requirement never needs less provision |
| Mangrove.CalculateOffersProvision | src/mangrove.ts:594-608 | 0 for no offers, never negative, and at least each offer's own provision |
| Mangrove.OffersProvisionAppend | src/mangrove.ts:594-608 | the provision of two lists together is the sum of their provisions |
| Mangrove.TwoIdenticalOffers | src/mangrove.ts:594-608 | two identical offers need twice the provision of one |
| Mangrove.GetMissingProvision | src/mangrove.ts:615-622 | never negative; 0 exactly when locked covers total; otherwise locked plus missing is exactly total |
| Mangrove.StrLessAsymmetric | src/mangrove.ts:1063 | string order never holds both ways |
| Mangrove.StrLessTotal | src/mangrove.ts:1063 | of two distinct strings, one sorts first |
| Mangrove.ToBaseQuoteByCashness | src/mangrove.ts:1056-1068 | returns the two names in some order; the name with lower cashness is base when both cashnesses are known |
| Mangrove.TieBrokenByName | src/mangrove.ts:1056-1068 | at equal or unknown cashness the name that sorts first is base |
| Mangrove.ToBaseQuoteSymmetric | src/mangrove.ts:1056-1068 | swapping the two names gives the same base and quote |
| Mangrove.Registry.GetAddress | src/mangrove.ts:763-773 | an unknown network throws "No addresses for network …"; otherwise a missing or empty address throws "No address for … on network …"; any address returned is the registered one |
| Mangrove.Registry.SetAddress | src/mangrove.ts:778-784 | creates the network when missing; the name then reads back as the normalised address and every other (name, network) is unchanged |
| Mangrove.Registry.SetCashness | src/mangrove.ts:1048-1050 | records the cashness of one name and changes no other |
| Mangrove.Registry.GetNameFromAddress | src/mangrove.ts:475-490 | the first name registered on the network with the normalised address, or none exactly when no name has it or the network is unknown |

## Left out

- The side caches (`src/semibook.ts`) are not part of this model: pivot search, offer lookup, volume estimation, paginated reads and configuration reads. `Semibook.getIsVolumeDesiredForAsks/Bids` is passed to `Market.GetSemibookOpts` and `Market.Market.Connect` as flags. `Semibook.DEFAULT_MAX_OFFERS` is not modelled.
- `src/util/trade.ts` is not part of this model: `buy`, `sell`, `snipe`, `gasEstimateBuy/Sell`, `getRawSnipeParams`. `Market`'s `getOfferProvision`, `getMissingProvision`, `isLive`, `offerInfo` and `config` read the chain and are left out.
- `Market.EstimateGas` and `Market.SimulateGas` take the configuration values and the simulated gas as parameters, because they are read from the chain.
- Asynchrony of `once` is left out: the promise and its `ok`/`ko` handlers, and awaiting an asynchronous filter. A filter is a boolean function, and a resolution is recorded as the (key, value) pair. A callback that throws, and a callback that changes the subscription table while dispatch is running, are not modelled.
- Market.MinPriceDifference: models the computation up to the minimum non-zero difference. The `Math.log10` step that turns it into a number of decimals is floating point and is left out.
- Exact rationals replace big.js. Division rounding to 20 decimal places (`Big.DP = 20`) is not modelled, and neither are JavaScript number precision or `toNumber` overflow.
- `ethers.utils.getAddress` checksum normalisation is a `normalize` parameter. Its throw on a malformed address is not modelled.
- Log decoding (`parseLog`) is left out. Logs and receipt events are already decoded events.
- Mangrove's instance `getAddress`/`setAddress`, which default the network, are left out. So are `connect`, the constructor, providers, `disconnect`, permits, `openMarkets`/`openMarketsData` and `fetchDecimals`. All of these are network plumbing or thin wrappers.
- Mangrove.StrLess: compares Unicode scalar values, not UTF-16 code units. The two orders differ only for characters outside the Basic Multilingual Plane.
- The address registry follows insertion order. JavaScript objects list integer-like keys first, and names inherited from `Object.prototype` would satisfy `in`; neither is modelled.
- A `BookOptions` key that is present with value `undefined` is treated as absent.
- A cashness value of NaN is not modelled.
- Market.Market.Close: a second call does not throw, as in the source. The source checks that both callbacks (`asksCb`, `bidsCb`) and both caches exist. `#initialize` sets the callbacks before it connects the caches, so both caches existing implies both callbacks exist, and the model checks the caches only.
- Mangrove.CalculateOfferProvision: takes natural numbers. With a fractional gas price the source's `BigNumber.mul` throws, and a negative gas price would give a negative provision; neither case is modelled, so "never negative" holds by the restricted domain.
- Market.Market.Connect and Market.Market.RequestBook take the options object explicitly. The source's default when it is omitted (`bookOptsDefault` at `src/market.ts:21-23`: maxOffers = `Semibook.DEFAULT_MAX_OFFERS`) is not modelled, because that constant is defined in `src/semibook.ts`.
