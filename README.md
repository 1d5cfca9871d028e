# TickrShell data service: command handling and the mock provider

This project models the core of the TickrShell data service. It covers two parts.

- `DataService` keeps a set of subscribed stock symbols and a current currency (initially
  USD). It handles the commands Subscribe, Unsubscribe, Query, PriceHistoryRequest,
  RequestSubscriptions and SetCurrency. It publishes quotes, acknowledgements and errors,
  and writes subscriptions and prices to a store. A background loop re-quotes every
  subscribed symbol.
- `MockDataProvider` decides which symbols are valid (a fixed table of five) and
  generates quotes.

Files and modules:

- `types.dfy` (`Types`): quotes, messages, store writes, and the collaborators. Quote
  generation, currency conversion, currency-code validation and the database are opaque
  functions injected at construction. A collaborator that may throw returns a `Result`.
  A store write that may throw is described by `storeFault`.
- `mock_data.dfy` (`MockData`): the provider's table. The class `MockDataProvider` has its
  `const` table and its mutable `lastPrices` map. The normal-distribution draw and the
  clock are parameters.
- `currency_overlay.dfy` (`CurrencyOverlay`): the source's three ways of expressing a USD
  quote in the current currency.
- `dispatch.dfy` (`Dispatch`): each handler as a function of the service state. The state
  is the currency, the set, the log of published messages and the log of accepted store
  writes. A handler also yields the text of an exception that escaped it. The lemmas about
  the handlers are here.
- `data_service.dfy` (`Service`): the class `DataService`. Its fields are the set, the
  currency, the running flag and the two logs, and its methods update them in place. Each
  handler method is proved to leave exactly the state its `Dispatch` function gives.
  Iterating the unordered set (the SetCurrency refresh, the update pass) returns a ghost
  `order` listing every member exactly once. The order itself is left unspecified.

Three orderings of the source that the model keeps:

- Subscribe inserts the symbol before saving it, so a failed save leaves the symbol
  subscribed and unsaved (`Dispatch.SubscribeStoreFaultKeepsSymbol`).
- Each QuoteUpdate is published before its price is stored, so a failed price write still
  leaves the quote published (`Dispatch.HandleReportsSubscribeFault`,
  `Dispatch.HandleReportsQueryFault`).
- The subscription list reports what the store returns, not the in-memory set
  (`Dispatch.HandleForwardsStoreReads`).

## Model

| member | source | states |
|---|---|---|
| `MockData.ConfiguredSymbols` | src/MockData.cpp:7-15 | the table's keys are exactly AAPL, MSFT, GOOGL, AMZN, META, so there are five |
| `MockData.BasePricesPositive` | src/MockData.cpp:9-13 | every configured base price is positive, so a walk never starts from 0.0 |
| `MockData.MockDataProvider.constructor` | include/MockData.h:19-23 | a new provider remembers no prices; the table is a `const` initialised to the five configurations and never changes |
| `MockData.MockDataProvider.IsValidSymbol` | src/MockData.cpp:51-53 | a symbol is valid iff it is one of the five configured keys; the function reads no mutable state |
| `MockData.MockDataProvider.GetAvailableSymbols` | src/MockData.cpp:55-64 | the list has length 5, holds each configured symbol exactly once, and s is listed iff it is valid; it changes nothing |
| `MockData.MockDataProvider.GenerateQuote` | src/MockData.cpp:17-49 | an unknown symbol fails with "Invalid symbol: "+symbol before `lastPrices` is touched; a known symbol yields a quote for that symbol, stamped with the clock, priced from the remembered or base price; only the entry for that symbol changes, and it stays 0.0, so every quote starts from the base price |
| `MockData.MockDataProvider.GenerateQuoteTracked` | src/MockData.cpp:28-42 | corrected generation: the same, but the new price is remembered for the symbol |
| `MockData.RepeatedQuotesRestartFromBase` | src/MockData.cpp:28-42 | as written, AAPL quoted at +1% (176.75) and then at +0% gives 175.0, not 176.75 |
| `MockData.TrackedQuotesContinueWalk` | src/MockData.cpp:28-42 | with the correction, the second quote continues from the first |
| `CurrencyOverlay.OverlayByRate` | src/DataService.cpp:97-114 | the subscribe-path overlay keeps symbol, timestamp and change, and yields currency USD or the current one |
| `CurrencyOverlay.OverlayByPrice` | src/DataService.cpp:156-173 | the query-path overlay keeps symbol, timestamp and change, and yields currency USD or the current one |
| `CurrencyOverlay.ConvertQuoteCurrency` | src/DataService.cpp:213-228 | returns a new quote with the same symbol, timestamp and change, in the quote's own or the current currency |
| `CurrencyOverlay.OverlayOutcomes` | src/DataService.cpp:158-173 | in USD the quote is the generated one marked USD; otherwise it has the current currency and the converted price if conversion succeeds, and stays USD at the generated price if it fails (both paths) |
| `CurrencyOverlay.OverlaysAgreeWhenLinear` | src/DataService.cpp:104-106 | the subscribe path (price times convert(1.0)) equals the query path (convert(price)) whenever conversion is multiplication by a rate |
| `CurrencyOverlay.OverlaysDifferUnderFee` | src/DataService.cpp:104-106 | a converter with a fixed fee makes the two paths quote different prices, so conversion is not assumed linear |
| `CurrencyOverlay.ConvertQuoteCurrencyUnchanged` | src/DataService.cpp:213-228 | the result equals the input iff the currency is USD, or is already the quote's, or conversion fails; otherwise it is the converted copy |
| `Dispatch.SubscribeStep` | src/DataService.cpp:83-128 | subscribeStock keeps the currency, only appends to both logs, and leaves the set plus s for a valid symbol (even if a later step throws) and unchanged otherwise |
| `Dispatch.UnsubscribeStep` | src/DataService.cpp:130-147 | unsubscribeStock keeps the currency, only appends to both logs, throws iff s is subscribed and its removal throws, and then keeps the set; otherwise the set loses s |
| `Dispatch.QueryStep` | src/DataService.cpp:149-183 | queryStock keeps the set and the currency, always publishes something and only appends to the store |
| `Dispatch.PriceHistoryStep` | src/DataService.cpp:186-192 | sendPriceHistory changes neither set, currency nor store, throws iff the store read fails, and publishes one message iff it does not |
| `Dispatch.SubscriptionsListStep` | src/DataService.cpp:194-204 | sendSubscriptionsList changes neither set, currency nor store, throws iff the store read fails, and publishes one message iff it does not |
| `Dispatch.UpdateSymbolStep` | src/DataService.cpp:235-258 | one symbol of the update loop keeps the set and the currency and only appends to both logs |
| `Dispatch.SubscribeRejected` | src/DataService.cpp:83-128 | an invalid or already-subscribed symbol publishes exactly "Invalid symbol: "+s or "Already subscribed to "+s, and the set and the store are untouched |
| `Dispatch.SubscribeAccepted` | src/DataService.cpp:87-117 | a valid new symbol is added; the store gets SaveSubscription(s) then SavePrice of the published price; the client gets SubscribeAck(s) then one QuoteUpdate |
| `Dispatch.SubscribeStoreFaultKeepsSymbol` | src/DataService.cpp:87-91 | if saving the subscription throws, the symbol stays in the set, nothing is stored or acknowledged, and one Error with the fault text is published |
| `Dispatch.SubscribeTwiceSavesOnce` | src/DataService.cpp:87-122 | a second Subscribe of a valid symbol only publishes "Already subscribed to "+s and makes no store write |
| `Dispatch.SubscribeUnsubscribeRoundTrip` | src/DataService.cpp:83-147 | Subscribe then Unsubscribe of a symbol not yet subscribed restores the set when the store removal succeeds |
| `Dispatch.UnsubscribeRemoved` | src/DataService.cpp:130-141 | a subscribed symbol gets RemoveSubscription(s), then is erased, then UnsubscribeAck(s); the currency is unchanged |
| `Dispatch.UnsubscribeRejected` | src/DataService.cpp:142-146 | an unsubscribed symbol publishes exactly "Symbol "+s+" is not subscribed." with no store call and no other change |
| `Dispatch.UnsubscribeStoreFaultKeepsSymbol` | src/DataService.cpp:132-137 | a failing store removal escapes before the erase, so nothing changes |
| `Dispatch.QueryKeepsRegistry` | src/DataService.cpp:149-183 | a query never changes the set or the currency, publishes one or two messages and stores at most one price |
| `Dispatch.QueryRejected` | src/DataService.cpp:150-153 | an invalid symbol publishes exactly "Invalid symbol: "+s and nothing else happens |
| `Dispatch.QueryAnswered` | src/DataService.cpp:155-176 | a valid symbol publishes exactly one QuoteUpdate in the current currency, then stores that same price |
| `Dispatch.RefreshKeepsRegistry` | src/DataService.cpp:62-64 | the re-queries keep the set and the currency, publish at least one message per symbol and store only prices |
| `Dispatch.RefreshQuotesEachSymbol` | src/DataService.cpp:62-64 | with valid symbols, successful quotes and stores, the refresh publishes exactly one QuoteUpdate per subscribed symbol, in iteration order |
| `Dispatch.SetCurrencyAccepted` | src/DataService.cpp:59-66 | a valid code becomes the currency, the set is unchanged, and one query runs per subscribed symbol |
| `Dispatch.SetCurrencyRejected` | src/DataService.cpp:67-69 | an invalid code publishes exactly "Invalid currency code: "+c; currency, set and store are unchanged and no quotes are sent |
| `Dispatch.QueryAfterSetCurrency` | src/DataService.cpp:57-66 | after SetCurrency to a valid non-USD code, a query publishes a quote in that code priced at convert(native price, code) |
| `Dispatch.HandleIgnoresOtherMessages` | src/DataService.cpp:72-74 | a message of any other type publishes nothing and changes nothing |
| `Dispatch.HandleReportsSubscribeFault` | src/DataService.cpp:87-117 | for a valid new symbol whose save succeeded: if quote generation throws e, the result is the set plus s, SubscribeAck(s) then Error(e) published, only SaveSubscription(s) stored; if storing the price throws e, SubscribeAck(s), the QuoteUpdate, then Error(e) are published and only SaveSubscription(s) stored |
| `Dispatch.HandleReportsQueryFault` | src/DataService.cpp:155-182 | for a valid symbol: if generation throws e, only Error(e) is published; if storing the price throws e, the QuoteUpdate then Error(e) are published and nothing is stored; set and currency unchanged |
| `Dispatch.HandleReportsUnsubscribeFault` | src/DataService.cpp:130-137 | a subscribed symbol whose store removal throws e publishes exactly Error(e) and changes nothing else (the catch at lines 77-80) |
| `Dispatch.HandleForwardsStoreReads` | src/DataService.cpp:186-204 | price history and the subscription list publish what the store returns (the store's list, not the in-memory set) and change nothing |
| `Dispatch.HandleRegistryEffect` | src/DataService.cpp:33-81 | after any message the set equals RegistryAfter: Subscribe adds a valid symbol, Unsubscribe removes unless the store removal throws, others keep it |
| `Dispatch.HandleCurrencyEffect` | src/DataService.cpp:57-66 | the currency changes only on SetCurrency with a valid code, and then to that code |
| `Dispatch.HandleAppendsOnly` | src/DataService.cpp:33-81 | the published messages and the store writes only grow |
| `Dispatch.HandleKeepsStoreInSync` | src/DataService.cpp:83-147 | replaying a message's store writes on the old set gives the new set, for every message except a Subscribe of a valid, not yet subscribed symbol whose save throws |
| `Dispatch.NetRegistryMatches` | include/DataService.h:19 | after any sequence of messages the set is exactly the one implied by the net adds and removes |
| `Dispatch.ScenarioResponses` | src/DataService.cpp:83-183 | subscribe AAPL, subscribe AAPL, unsubscribe MSFT, query ZZZZ publish SubscribeAck, a USD quote, then the three exact errors |
| `Dispatch.UpdateSymbolKeepsRegistry` | src/DataService.cpp:235-258 | one symbol of a pass publishes its overlaid quote if generation succeeds (nothing otherwise) and stores at most one price |
| `Dispatch.UpdatePassKeepsRegistry` | src/DataService.cpp:234-259 | a pass keeps the set and the currency, publishes only quotes and stores only prices |
| `Dispatch.UpdatePassQuoteCount` | src/DataService.cpp:234-259 | a pass publishes one quote per symbol whose generation succeeds; a failure skips only its own symbol |
| `Dispatch.UpdatePassReachesEverySymbol` | src/DataService.cpp:234-259 | every symbol whose generation succeeds has its quote, overlaid with the current currency, published in the pass |
| `Service.DataService.constructor` | src/DataService.cpp:22-27 | the set holds exactly the symbols the store's getSubscriptions reports before any write (the same read sendSubscriptionsList makes later); the currency is "USD", running is true, both logs are empty |
| `Service.DataService.Stop` | src/DataService.cpp:285-287 | clears running and changes nothing else |
| `Service.DataService.Publish` | src/DataService.cpp:116 | one send on the publisher socket appends exactly that message to the published log and changes nothing else |
| `Service.DataService.Persist` | src/DataService.cpp:90-91 | one store write is logged iff the store does not throw, in which case its fault is returned and nothing changes |
| `Service.DataService.StoreStockPrice` | src/DataService.cpp:206-211 | records SavePrice(symbol, price, timestamp) or returns the store's fault |
| `Service.DataService.SubscribeStock` | src/DataService.cpp:83-128 | the new set, currency, logs and escaping fault are those of `Dispatch.SubscribeStep` |
| `Service.DataService.UnsubscribeStock` | src/DataService.cpp:130-147 | the new state and fault are those of `Dispatch.UnsubscribeStep` |
| `Service.DataService.QueryStock` | src/DataService.cpp:149-183 | the new state is that of `Dispatch.QueryStep`; no fault escapes |
| `Service.DataService.SendPriceHistory` | src/DataService.cpp:186-192 | the new state and fault are those of `Dispatch.PriceHistoryStep` |
| `Service.DataService.SendSubscriptionsList` | src/DataService.cpp:194-204 | the new state and fault are those of `Dispatch.SubscriptionsListStep` |
| `Service.DataService.ChangeCurrency` | src/DataService.cpp:57-70 | the new state is `Dispatch.SetCurrencyStep` for an iteration order listing the set exactly once |
| `Service.DataService.HandleMessage` | src/DataService.cpp:33-81 | the new state is `Dispatch.HandleStep` of the old one; running is untouched |
| `Service.DataService.UpdateSymbol` | src/DataService.cpp:235-258 | the new state is `Dispatch.UpdateSymbolStep`; exceptions are swallowed |
| `Service.DataService.UpdatePass` | src/DataService.cpp:234-259 | the new state is `Dispatch.UpdatePassStep` for an iteration order listing the set exactly once |

## Findings

| source | as written | input that shows it | evidently intended | confidence | as-written member | corrected member |
|---|---|---|---|---|---|---|
| src/MockData.cpp:28-42 | `auto last_price = last_prices[symbol]` copies the entry, and the new price is assigned only to that copy, so the remembered price stays 0.0 | a fresh provider quotes AAPL with draw 0.01 (176.75), then with draw 0.0: the second quote is 175.0 | the next quote continues the walk from the last price (176.75) | high (not executed) | `MockData.RepeatedQuotesRestartFromBase` | `MockData.MockDataProvider.GenerateQuoteTracked` |

`DataService` does not call the provider's generator. It takes quote generation as an
injected function, so it is correct for either version.

## Left out

- The threads: the update thread, the receive loop, the polling of `running`, the 8-second
  sleep and the join in `run`. Only one sequential pass of the update loop is modelled.
  The unguarded sharing of the set between the two threads is a data race and is not
  expressible here.
- `run` itself, and the ZeroMQ sockets (connect, bind, setSubscribe, receive). Sending is
  an append to the `published` log and never fails.
- The SQLite `DatabaseService`. Its writes are the `store` log. Whether a write throws is
  the opaque `storeFault`. Its two reads are opaque functions of the writes made so far.
  A failure to open the database at startup is not modelled.
- The `CurrencyService`. Conversion and code validation are opaque functions, and
  validation never throws.
- Quote generation inside `DataService` is an opaque function of the symbol. Two calls for
  the same symbol in one model return the same quote, and the random draws are not modelled.
- `MockData.MockDataProvider.GenerateQuote`: the normal-distribution draw (`rng`, trend,
  volatility) is the parameter `draw`, and `now` stands for the clock. Floating-point
  rounding is not modelled: prices are exact reals. The currency that
  `StockQuote::create` sets is taken to be "USD". The header declaring it is not part of
  this model, and every `DataService` path overwrites it with "USD" anyway.
- `IStockDataProvider` is a pure interface with no behaviour. Classes here do not inherit.
- Logging (spdlog) and `src/main.cpp`.
- The private/public split has no counterpart: Dafny members are all accessible. In the
  source only the constructor, `run` and `stop` are public, so every change to the set and
  the currency goes through the handlers modelled here.
- Service.DataService.constructor: requires the startup read of the subscriptions to succeed.
  When it throws, the source's constructor throws and no service object exists, so there is
  no state to model.
