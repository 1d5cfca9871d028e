/**
 * The data service's command handling as functions of its state: for each handler, the new
 * subscription set and currency, what it publishes, what it writes to the store, and the
 * exception that escapes it, if any. The class in module Service runs these handlers step by
 * step and is proved to end in exactly the state these functions give; the lemmas below state
 * what the handlers promise.
 */
module Dispatch {
  import opened Types
  import MockData
  import opened CurrencyOverlay

  /** The fields the handlers change, with the publisher and the store as append-only logs. */
  datatype State = State(currency: string, subscribed: set<string>, published: seq<Message>, store: seq<StoreOp>)

  /** A handler's result: the state it leaves, and the text of an exception that escaped it. */
  datatype Outcome = Outcome(state: State, fault: Option<string>)

  function Emit(st: State, m: Message): State
  {
    st.(published := st.published + [m])
  }

  function Done(st: State): Outcome
  {
    Outcome(st, None)
  }

  /** One store write: logged when it succeeds; otherwise nothing is logged and its exception escapes. */
  function Write(st: State, c: Collaborators, op: StoreOp): Outcome
  {
    match c.storeFault(op)
    case Some(e) => Outcome(st, Some(e))
    case None => Done(st.(store := st.store + [op]))
  }

  /** subscribeStock: validate, insert, persist, acknowledge, then quote and persist the price. */
  function SubscribeStep(st: State, c: Collaborators, symbol: string): (r: Outcome)
    ensures r.state.currency == st.currency && st.published <= r.state.published && st.store <= r.state.store
    ensures r.state.subscribed == if symbol in MockData.StockConfigs() then st.subscribed + {symbol} else st.subscribed
  {
    if symbol !in MockData.StockConfigs() then
      Done(Emit(st, Error("Invalid symbol: " + symbol)))
    else if symbol in st.subscribed then
      Done(Emit(st, Error("Already subscribed to " + symbol)))
    else
      var saved := Write(st.(subscribed := st.subscribed + {symbol}), c, SaveSubscription(symbol));
      if saved.fault.Some? then saved
      else
        var acked := Emit(saved.state, SubscribeAck(symbol));
        match c.generateQuote(symbol)
        case Err(e) => Outcome(acked, Some(e))
        case Ok(generated) =>
          var quote := OverlayByRate(c.convertCurrency, st.currency, generated);
          Write(Emit(acked, QuoteUpdate(quote)), c, SavePrice(symbol, quote.price, quote.timestamp))
  }

  /** unsubscribeStock: for a subscribed symbol, remove it from the store, then from the set, then acknowledge. */
  function UnsubscribeStep(st: State, c: Collaborators, symbol: string): (r: Outcome)
    ensures r.state.currency == st.currency && st.published <= r.state.published && st.store <= r.state.store
    ensures r.fault.Some? <==> symbol in st.subscribed && c.storeFault(RemoveSubscription(symbol)).Some?
    ensures r.state.subscribed == if r.fault.Some? then st.subscribed else st.subscribed - {symbol}
  {
    if symbol in st.subscribed then
      var removed := Write(st, c, RemoveSubscription(symbol));
      if removed.fault.Some? then removed
      else Done(Emit(removed.state.(subscribed := removed.state.subscribed - {symbol}), UnsubscribeAck(symbol)))
    else
      Done(Emit(st, Error("Symbol " + symbol + " is not subscribed.")))
  }

  /** queryStock: never throws; any exception after validation is published as an Error. */
  function QueryStep(st: State, c: Collaborators, symbol: string): (r: State)
    ensures r.currency == st.currency && r.subscribed == st.subscribed
    ensures st.published < r.published && st.store <= r.store
  {
    if symbol !in MockData.StockConfigs() then
      Emit(st, Error("Invalid symbol: " + symbol))
    else
      match c.generateQuote(symbol)
      case Err(e) => Emit(st, Error(e))
      case Ok(generated) =>
        var quote := OverlayByPrice(c.convertCurrency, st.currency, generated);
        var stored := Write(Emit(st, QuoteUpdate(quote)), c, SavePrice(symbol, quote.price, quote.timestamp));
        if stored.fault.Some? then Emit(stored.state, Error(stored.fault.value)) else stored.state
  }

  /** sendPriceHistory: forwards what the store reports for the symbol. */
  function PriceHistoryStep(st: State, c: Collaborators, symbol: string): (r: Outcome)
    ensures r.state.currency == st.currency && r.state.subscribed == st.subscribed && r.state.store == st.store
    ensures r.fault.None? <==> c.getPriceHistory(st.store, symbol).Ok?
    ensures |r.state.published| == |st.published| + (if r.fault.None? then 1 else 0)
  {
    match c.getPriceHistory(st.store, symbol)
    case Err(e) => Outcome(st, Some(e))
    case Ok(history) => Done(Emit(st, PriceHistory(symbol, history)))
  }

  /** sendSubscriptionsList: forwards the subscriptions the store reports, not the in-memory set. */
  function SubscriptionsListStep(st: State, c: Collaborators): (r: Outcome)
    ensures r.state.currency == st.currency && r.state.subscribed == st.subscribed && r.state.store == st.store
    ensures r.fault.None? <==> c.getSubscriptions(st.store).Ok?
    ensures |r.state.published| == |st.published| + (if r.fault.None? then 1 else 0)
  {
    match c.getSubscriptions(st.store)
    case Err(e) => Outcome(st, Some(e))
    case Ok(symbols) => Done(Emit(st, SubscriptionsList(symbols)))
  }

  /** One queryStock per symbol of `order`, in that order. */
  function RefreshStep(st: State, c: Collaborators, order: seq<string>): State
    decreases |order|
  {
    if order == [] then st
    else QueryStep(RefreshStep(st, c, order[..|order| - 1]), c, order[|order| - 1])
  }

  /** The SetCurrency branch; `order` is the order in which the subscribed set is iterated. */
  function SetCurrencyStep(st: State, c: Collaborators, code: string, order: seq<string>): State
  {
    if c.isValidCurrencyCode(code) then RefreshStep(st.(currency := code), c, order)
    else Emit(st, Error("Invalid currency code: " + code))
  }

  /** The switch of handleMessage; an unexpected message type is only logged. */
  function Dispatched(st: State, c: Collaborators, msg: Message, order: seq<string>): Outcome
  {
    match msg
    case Subscribe(symbol) => SubscribeStep(st, c, symbol)
    case Unsubscribe(symbol) => UnsubscribeStep(st, c, symbol)
    case Query(symbol) => Done(QueryStep(st, c, symbol))
    case PriceHistoryRequest(symbol) => PriceHistoryStep(st, c, symbol)
    case RequestSubscriptions => SubscriptionsListStep(st, c)
    case SetCurrency(code) => Done(SetCurrencyStep(st, c, code, order))
    case _ => Done(st)
  }

  /** handleMessage: an exception escaping the switch is published as an Error with its text. */
  function HandleStep(st: State, c: Collaborators, msg: Message, order: seq<string>): State
  {
    var o := Dispatched(st, c, msg, order);
    if o.fault.Some? then Emit(o.state, Error(o.fault.value)) else o.state
  }

  /** The body of the update loop for one symbol; an exception is logged and swallowed. */
  function UpdateSymbolStep(st: State, c: Collaborators, symbol: string): (r: State)
    ensures r.currency == st.currency && r.subscribed == st.subscribed
    ensures st.published <= r.published && st.store <= r.store
  {
    match c.generateQuote(symbol)
    case Err(_) => st
    case Ok(generated) =>
      var quote := OverlayByPrice(c.convertCurrency, st.currency, generated);
      Write(Emit(st, QuoteUpdate(quote)), c, SavePrice(symbol, quote.price, quote.timestamp)).state
  }

  /** One pass of the update loop over the subscribed symbols, in the order `order`. */
  function UpdatePassStep(st: State, c: Collaborators, order: seq<string>): State
    decreases |order|
  {
    if order == [] then st
    else UpdateSymbolStep(UpdatePassStep(st, c, order[..|order| - 1]), c, order[|order| - 1])
  }

  /** `order` lists every element of `s` exactly once: one possible iteration order of the set. */
  ghost predicate IsEnumeration(order: seq<string>, s: set<string>)
  {
    && (forall x :: x in order <==> x in s)
    && (forall i, j :: 0 <= i < j < |order| ==> order[i] != order[j])
  }

  /** The subscriptions the store holds after `ops`, given that it held `base` before. */
  function Persisted(base: set<string>, ops: seq<StoreOp>): set<string>
    decreases |ops|
  {
    if ops == [] then base
    else
      var before := Persisted(base, ops[..|ops| - 1]);
      match ops[|ops| - 1]
      case SaveSubscription(symbol) => before + {symbol}
      case RemoveSubscription(symbol) => before - {symbol}
      case SavePrice(_, _, _) => before
  }

  predicate PricesOnly(ops: seq<StoreOp>)
  {
    forall i :: 0 <= i < |ops| ==> ops[i].SavePrice?
  }

  predicate QuotesOnly(ms: seq<Message>)
  {
    forall i :: 0 <= i < |ms| ==> ms[i].QuoteUpdate?
  }

  /** No price write ever fails. */
  ghost predicate PricesPersist(c: Collaborators)
  {
    forall op: StoreOp :: op.SavePrice? ==> c.storeFault(op) == None
  }

  /**
   * The subscription set after one message, stated independently of the handlers: a
   * Subscribe adds a valid symbol (even when a later step of the handler throws); an
   * Unsubscribe removes the symbol unless removing it from the store throws; nothing else
   * changes the set.
   */
  function RegistryAfter(subscribed: set<string>, c: Collaborators, msg: Message): set<string>
  {
    match msg
    case Subscribe(symbol) =>
      if symbol in MockData.StockConfigs() then subscribed + {symbol} else subscribed
    case Unsubscribe(symbol) =>
      if symbol in subscribed && c.storeFault(RemoveSubscription(symbol)).Some? then subscribed
      else subscribed - {symbol}
    case _ => subscribed
  }

  /** The set after a sequence of messages, one RegistryAfter at a time. */
  function NetRegistry(subscribed: set<string>, c: Collaborators, msgs: seq<Message>): set<string>
    decreases |msgs|
  {
    if msgs == [] then subscribed
    else RegistryAfter(NetRegistry(subscribed, c, msgs[..|msgs| - 1]), c, msgs[|msgs| - 1])
  }

  /** handleMessage applied to each message in turn; `orders[i]` is the set's iteration order at message i. */
  function HandleAll(st: State, c: Collaborators, msgs: seq<Message>, orders: seq<seq<string>>): State
    requires |orders| == |msgs|
    decreases |msgs|
  {
    if msgs == [] then st
    else HandleStep(HandleAll(st, c, msgs[..|msgs| - 1], orders[..|msgs| - 1]), c, msgs[|msgs| - 1], orders[|msgs| - 1])
  }

  /** How many symbols of `order` the update loop gets a quote for. */
  function QuotedCount(c: Collaborators, order: seq<string>): nat
    decreases |order|
  {
    if order == [] then 0
    else QuotedCount(c, order[..|order| - 1]) + (if c.generateQuote(order[|order| - 1]).Ok? then 1 else 0)
  }

  // ---------------------------------------------------------------------------------------
  // Subscribe

  /** An invalid or already-subscribed symbol: exactly one Error, and nothing else changes. */
  lemma SubscribeRejected(st: State, c: Collaborators, symbol: string)
    requires symbol !in MockData.StockConfigs() || symbol in st.subscribed
    ensures SubscribeStep(st, c, symbol) == Done(st.(published := st.published + [Error(
      if symbol !in MockData.StockConfigs() then "Invalid symbol: " + symbol else "Already subscribed to " + symbol)]))
  {
  }

  /**
   * A valid new symbol, when no collaborator throws: the set gains it; the store records the
   * subscription and then the published price; the client receives the acknowledgement and
   * then one quote in the current currency.
   */
  lemma SubscribeAccepted(st: State, c: Collaborators, symbol: string)
    requires symbol in MockData.StockConfigs() && symbol !in st.subscribed
    requires c.storeFault(SaveSubscription(symbol)) == None
    requires c.generateQuote(symbol).Ok? && PricesPersist(c)
    ensures var quote := OverlayByRate(c.convertCurrency, st.currency, c.generateQuote(symbol).value);
      SubscribeStep(st, c, symbol) == Done(State(
        st.currency,
        st.subscribed + {symbol},
        st.published + [SubscribeAck(symbol), QuoteUpdate(quote)],
        st.store + [SaveSubscription(symbol), SavePrice(symbol, quote.price, quote.timestamp)]))
  {
    var quote := OverlayByRate(c.convertCurrency, st.currency, c.generateQuote(symbol).value);
    assert c.storeFault(SavePrice(symbol, quote.price, quote.timestamp)) == None;
    assert st.published + [SubscribeAck(symbol)] + [QuoteUpdate(quote)] == st.published + [SubscribeAck(symbol), QuoteUpdate(quote)];
    assert st.store + [SaveSubscription(symbol)] + [SavePrice(symbol, quote.price, quote.timestamp)]
      == st.store + [SaveSubscription(symbol), SavePrice(symbol, quote.price, quote.timestamp)];
  }

  /**
   * The set is updated before the store: when saving the subscription throws, the symbol
   * stays in the set, nothing is stored or acknowledged, and handleMessage publishes the
   * exception's text.
   */
  lemma SubscribeStoreFaultKeepsSymbol(st: State, c: Collaborators, symbol: string, order: seq<string>)
    requires symbol in MockData.StockConfigs() && symbol !in st.subscribed
    requires c.storeFault(SaveSubscription(symbol)).Some?
    ensures SubscribeStep(st, c, symbol)
      == Outcome(st.(subscribed := st.subscribed + {symbol}), c.storeFault(SaveSubscription(symbol)))
    ensures HandleStep(st, c, Subscribe(symbol), order)
      == State(st.currency, st.subscribed + {symbol},
               st.published + [Error(c.storeFault(SaveSubscription(symbol)).value)], st.store)
  {
  }

  /**
   * Subscribing twice: whatever happened in the first call, the second only publishes
   * "Already subscribed to" and makes no store write.
   */
  lemma SubscribeTwiceSavesOnce(st: State, c: Collaborators, symbol: string, order: seq<string>)
    requires symbol in MockData.StockConfigs()
    ensures var once := HandleStep(st, c, Subscribe(symbol), order);
      HandleStep(once, c, Subscribe(symbol), order) == Emit(once, Error("Already subscribed to " + symbol))
  {
    var once := HandleStep(st, c, Subscribe(symbol), order);
    HandleRegistryEffect(st, c, Subscribe(symbol), order);
    assert symbol in once.subscribed;
  }

  /** Unsubscribing a symbol just subscribed restores the set, if the store removes it. */
  lemma SubscribeUnsubscribeRoundTrip(st: State, c: Collaborators, symbol: string, order: seq<string>)
    requires symbol !in st.subscribed
    requires c.storeFault(RemoveSubscription(symbol)) == None
    ensures var once := HandleStep(st, c, Subscribe(symbol), order);
      HandleStep(once, c, Unsubscribe(symbol), order).subscribed == st.subscribed
  {
    var once := HandleStep(st, c, Subscribe(symbol), order);
    HandleRegistryEffect(st, c, Subscribe(symbol), order);
    HandleRegistryEffect(once, c, Unsubscribe(symbol), order);
  }

  // ---------------------------------------------------------------------------------------
  // Unsubscribe

  /** A subscribed symbol: removed from the store, then from the set, then acknowledged. */
  lemma UnsubscribeRemoved(st: State, c: Collaborators, symbol: string)
    requires symbol in st.subscribed && c.storeFault(RemoveSubscription(symbol)) == None
    ensures UnsubscribeStep(st, c, symbol) == Done(State(
      st.currency, st.subscribed - {symbol},
      st.published + [UnsubscribeAck(symbol)], st.store + [RemoveSubscription(symbol)]))
  {
  }

  /** A symbol not subscribed: exactly one Error, no store call, nothing else changes. */
  lemma UnsubscribeRejected(st: State, c: Collaborators, symbol: string)
    requires symbol !in st.subscribed
    ensures UnsubscribeStep(st, c, symbol) == Done(Emit(st, Error("Symbol " + symbol + " is not subscribed.")))
  {
  }

  /** The store is updated before the set: a failing removal leaves the symbol subscribed. */
  lemma UnsubscribeStoreFaultKeepsSymbol(st: State, c: Collaborators, symbol: string)
    requires symbol in st.subscribed && c.storeFault(RemoveSubscription(symbol)).Some?
    ensures UnsubscribeStep(st, c, symbol) == Outcome(st, c.storeFault(RemoveSubscription(symbol)))
  {
  }

  // ---------------------------------------------------------------------------------------
  // Query

  /**
   * A query never changes the set or the currency; it publishes one or two messages and
   * stores at most one price.
   */
  lemma QueryKeepsRegistry(st: State, c: Collaborators, symbol: string)
    ensures var r := QueryStep(st, c, symbol);
      && r.subscribed == st.subscribed && r.currency == st.currency
      && st.published < r.published && |r.published| <= |st.published| + 2
      && st.store <= r.store && |r.store| <= |st.store| + 1 && PricesOnly(r.store[|st.store|..])
  {
  }

  /** An invalid symbol: exactly one Error and no store write. */
  lemma QueryRejected(st: State, c: Collaborators, symbol: string)
    requires symbol !in MockData.StockConfigs()
    ensures QueryStep(st, c, symbol) == Emit(st, Error("Invalid symbol: " + symbol))
  {
  }

  /** A valid symbol: exactly one quote in the current currency, then that same price stored. */
  lemma QueryAnswered(st: State, c: Collaborators, symbol: string)
    requires symbol in MockData.StockConfigs() && c.generateQuote(symbol).Ok? && PricesPersist(c)
    ensures var quote := OverlayByPrice(c.convertCurrency, st.currency, c.generateQuote(symbol).value);
      QueryStep(st, c, symbol) == st.(
        published := st.published + [QuoteUpdate(quote)],
        store := st.store + [SavePrice(symbol, quote.price, quote.timestamp)])
  {
    var quote := OverlayByPrice(c.convertCurrency, st.currency, c.generateQuote(symbol).value);
    assert c.storeFault(SavePrice(symbol, quote.price, quote.timestamp)) == None;
  }

  // ---------------------------------------------------------------------------------------
  // SetCurrency

  /** The queries of a refresh change neither the set nor the currency, and store only prices. */
  lemma {:induction false} RefreshKeepsRegistry(st: State, c: Collaborators, order: seq<string>)
    ensures var r := RefreshStep(st, c, order);
      && r.subscribed == st.subscribed && r.currency == st.currency
      && st.published <= r.published && |r.published| >= |st.published| + |order|
      && st.store <= r.store && PricesOnly(r.store[|st.store|..])
    decreases |order|
  {
    if order != [] {
      var prefix := order[..|order| - 1];
      var mid := RefreshStep(st, c, prefix);
      RefreshKeepsRegistry(st, c, prefix);
      QueryKeepsRegistry(mid, c, order[|order| - 1]);
      var r := RefreshStep(st, c, order);
      assert r.store[|st.store|..] == mid.store[|st.store|..] + r.store[|mid.store|..];
    }
  }

  /** A valid code becomes the currency, and the set is unchanged. */
  lemma SetCurrencyAccepted(st: State, c: Collaborators, code: string, order: seq<string>)
    requires c.isValidCurrencyCode(code)
    ensures var r := HandleStep(st, c, SetCurrency(code), order);
      r.currency == code && r.subscribed == st.subscribed && r == RefreshStep(st.(currency := code), c, order)
  {
    RefreshKeepsRegistry(st.(currency := code), c, order);
  }

  /** An invalid code: the currency is unchanged, exactly one Error, no quotes, no store write. */
  lemma SetCurrencyRejected(st: State, c: Collaborators, code: string, order: seq<string>)
    requires !c.isValidCurrencyCode(code)
    ensures HandleStep(st, c, SetCurrency(code), order) == Emit(st, Error("Invalid currency code: " + code))
  {
  }

  /**
   * When every symbol in the refresh is valid, quotes, and its price is stored, the refresh
   * publishes exactly one quote per symbol, in the iteration order, each in the current currency.
   */
  lemma {:induction false} RefreshQuotesEachSymbol(st: State, c: Collaborators, order: seq<string>)
    requires forall s :: s in order ==> s in MockData.StockConfigs() && c.generateQuote(s).Ok?
    requires PricesPersist(c)
    ensures var r := RefreshStep(st, c, order);
      && |r.published| == |st.published| + |order|
      && r.published[..|st.published|] == st.published
      && forall i :: 0 <= i < |order| ==>
           r.published[|st.published| + i] == QuoteUpdate(OverlayByPrice(c.convertCurrency, st.currency, c.generateQuote(order[i]).value))
    decreases |order|
  {
    if order != [] {
      var prefix := order[..|order| - 1];
      var last := order[|order| - 1];
      var mid := RefreshStep(st, c, prefix);
      RefreshQuotesEachSymbol(st, c, prefix);
      RefreshKeepsRegistry(st, c, prefix);
      QueryAnswered(mid, c, last);
    }
  }

  /**
   * After a successful SetCurrency to a code other than USD, a query for a valid symbol
   * publishes a quote in that currency whose price is the converted generated price.
   */
  lemma QueryAfterSetCurrency(st: State, c: Collaborators, code: string, order: seq<string>, symbol: string)
    requires c.isValidCurrencyCode(code) && code != Usd
    requires symbol in MockData.StockConfigs() && c.generateQuote(symbol).Ok? && PricesPersist(c)
    requires c.convertCurrency(c.generateQuote(symbol).value.price, code).Ok?
    ensures var r := HandleStep(HandleStep(st, c, SetCurrency(code), order), c, Query(symbol), []);
      var native := c.generateQuote(symbol).value;
      r.published[|r.published| - 1] == QuoteUpdate(native.(
        price := c.convertCurrency(native.price, code).value, currency := code))
  {
    var mid := HandleStep(st, c, SetCurrency(code), order);
    SetCurrencyAccepted(st, c, code, order);
    QueryAnswered(mid, c, symbol);
  }

  // ---------------------------------------------------------------------------------------
  // handleMessage

  /** A message that is not one of the six commands publishes nothing and changes nothing. */
  lemma HandleIgnoresOtherMessages(st: State, c: Collaborators, msg: Message, order: seq<string>)
    requires !(msg.Subscribe? || msg.Unsubscribe? || msg.Query? || msg.PriceHistoryRequest?
               || msg.RequestSubscriptions? || msg.SetCurrency?)
    ensures HandleStep(st, c, msg, order) == st
  {
  }

  /**
   * Subscribe, after the subscription was saved: an exception from quote generation, or from
   * storing the quoted price, escapes subscribeStock and is published as one Error after what
   * was already sent; the symbol stays subscribed and saved. The quote is sent before its
   * price is stored, so a failing price write still leaves the quote published.
   */
  lemma HandleReportsSubscribeFault(st: State, c: Collaborators, symbol: string, order: seq<string>)
    requires symbol in MockData.StockConfigs() && symbol !in st.subscribed
    requires c.storeFault(SaveSubscription(symbol)) == None
    ensures c.generateQuote(symbol).Err? ==>
      HandleStep(st, c, Subscribe(symbol), order) == State(
        st.currency, st.subscribed + {symbol},
        st.published + [SubscribeAck(symbol), Error(c.generateQuote(symbol).error)],
        st.store + [SaveSubscription(symbol)])
    ensures c.generateQuote(symbol).Ok? ==>
      var quote := OverlayByRate(c.convertCurrency, st.currency, c.generateQuote(symbol).value);
      c.storeFault(SavePrice(symbol, quote.price, quote.timestamp)).Some? ==>
      HandleStep(st, c, Subscribe(symbol), order) == State(
        st.currency, st.subscribed + {symbol},
        st.published + [SubscribeAck(symbol), QuoteUpdate(quote), Error(c.storeFault(SavePrice(symbol, quote.price, quote.timestamp)).value)],
        st.store + [SaveSubscription(symbol)])
  {
    if c.generateQuote(symbol).Err? {
      assert st.published + [SubscribeAck(symbol)] + [Error(c.generateQuote(symbol).error)]
        == st.published + [SubscribeAck(symbol), Error(c.generateQuote(symbol).error)];
    } else {
      var quote := OverlayByRate(c.convertCurrency, st.currency, c.generateQuote(symbol).value);
      var e := c.storeFault(SavePrice(symbol, quote.price, quote.timestamp));
      if e.Some? {
        assert st.published + [SubscribeAck(symbol)] + [QuoteUpdate(quote)] + [Error(e.value)]
          == st.published + [SubscribeAck(symbol), QuoteUpdate(quote), Error(e.value)];
      }
    }
  }

  /**
   * Query of a valid symbol: queryStock catches its own exceptions, so a failing quote
   * generation publishes only its Error, and a failing price write publishes the quote and
   * then the Error, with nothing stored.
   */
  lemma HandleReportsQueryFault(st: State, c: Collaborators, symbol: string, order: seq<string>)
    requires symbol in MockData.StockConfigs()
    ensures c.generateQuote(symbol).Err? ==>
      HandleStep(st, c, Query(symbol), order) == Emit(st, Error(c.generateQuote(symbol).error))
    ensures c.generateQuote(symbol).Ok? ==>
      var quote := OverlayByPrice(c.convertCurrency, st.currency, c.generateQuote(symbol).value);
      c.storeFault(SavePrice(symbol, quote.price, quote.timestamp)).Some? ==>
      HandleStep(st, c, Query(symbol), order) == st.(published := st.published
        + [QuoteUpdate(quote), Error(c.storeFault(SavePrice(symbol, quote.price, quote.timestamp)).value)])
  {
    if c.generateQuote(symbol).Ok? {
      var quote := OverlayByPrice(c.convertCurrency, st.currency, c.generateQuote(symbol).value);
      var e := c.storeFault(SavePrice(symbol, quote.price, quote.timestamp));
      if e.Some? {
        assert st.published + [QuoteUpdate(quote)] + [Error(e.value)] == st.published + [QuoteUpdate(quote), Error(e.value)];
      }
    }
  }

  /** Unsubscribe whose store removal throws: only the exception's Error is published. */
  lemma HandleReportsUnsubscribeFault(st: State, c: Collaborators, symbol: string, order: seq<string>)
    requires symbol in st.subscribed && c.storeFault(RemoveSubscription(symbol)).Some?
    ensures HandleStep(st, c, Unsubscribe(symbol), order)
      == Emit(st, Error(c.storeFault(RemoveSubscription(symbol)).value))
  {
  }

  /** Price history and the subscription list forward what the store reports, and change nothing else. */
  lemma HandleForwardsStoreReads(st: State, c: Collaborators, symbol: string, order: seq<string>)
    ensures HandleStep(st, c, PriceHistoryRequest(symbol), order) == Emit(st,
      match c.getPriceHistory(st.store, symbol)
      case Ok(history) => PriceHistory(symbol, history)
      case Err(e) => Error(e))
    ensures HandleStep(st, c, RequestSubscriptions, order) == Emit(st,
      match c.getSubscriptions(st.store)
      case Ok(symbols) => SubscriptionsList(symbols)
      case Err(e) => Error(e))
  {
  }

  /** The set after any message is the one RegistryAfter gives. */
  lemma HandleRegistryEffect(st: State, c: Collaborators, msg: Message, order: seq<string>)
    ensures HandleStep(st, c, msg, order).subscribed == RegistryAfter(st.subscribed, c, msg)
  {
    if msg.SetCurrency? && c.isValidCurrencyCode(msg.currency) {
      RefreshKeepsRegistry(st.(currency := msg.currency), c, order);
    }
  }

  /** Only a SetCurrency with a valid code changes the currency, and it sets it to that code. */
  lemma HandleCurrencyEffect(st: State, c: Collaborators, msg: Message, order: seq<string>)
    ensures HandleStep(st, c, msg, order).currency
      == if msg.SetCurrency? && c.isValidCurrencyCode(msg.currency) then msg.currency else st.currency
  {
    if msg.SetCurrency? && c.isValidCurrencyCode(msg.currency) {
      RefreshKeepsRegistry(st.(currency := msg.currency), c, order);
    }
  }

  /** The publisher and the store are append-only. */
  lemma HandleAppendsOnly(st: State, c: Collaborators, msg: Message, order: seq<string>)
    ensures var r := HandleStep(st, c, msg, order);
      st.published <= r.published && st.store <= r.store
  {
    if msg.SetCurrency? && c.isValidCurrencyCode(msg.currency) {
      RefreshKeepsRegistry(st.(currency := msg.currency), c, order);
    } else if msg.Query? {
      QueryKeepsRegistry(st, c, msg.symbol);
    }
  }

  lemma PersistedPricesOnly(base: set<string>, ops: seq<StoreOp>)
    requires PricesOnly(ops)
    ensures Persisted(base, ops) == base
    decreases |ops|
  {
    if ops != [] {
      PersistedPricesOnly(base, ops[..|ops| - 1]);
    }
  }

  /**
   * The store's subscriptions follow the set: replaying the writes of one message on the
   * set before it gives the set after it, unless saving a new subscription threw.
   */
  lemma HandleKeepsStoreInSync(st: State, c: Collaborators, msg: Message, order: seq<string>)
    requires !(msg.Subscribe? && msg.symbol in MockData.StockConfigs() && msg.symbol !in st.subscribed
               && c.storeFault(SaveSubscription(msg.symbol)).Some?)
    ensures var r := HandleStep(st, c, msg, order);
      st.store <= r.store && Persisted(st.subscribed, r.store[|st.store|..]) == r.subscribed
  {
    var r := HandleStep(st, c, msg, order);
    HandleAppendsOnly(st, c, msg, order);
    HandleRegistryEffect(st, c, msg, order);
    var ops := r.store[|st.store|..];
    match msg {
      case Subscribe(symbol) =>
        if symbol in MockData.StockConfigs() && symbol !in st.subscribed {
          assert ops[..1] == [SaveSubscription(symbol)];
          assert PricesOnly(ops[1..]);
          PersistedPricesOnly(st.subscribed, ops[1..]);
          if |ops| == 2 {
            assert ops[..|ops| - 1] == [SaveSubscription(symbol)];
            assert Persisted(st.subscribed, [SaveSubscription(symbol)][..0]) == st.subscribed;
          } else {
            assert ops == [SaveSubscription(symbol)];
            assert ops[..0] == [];
          }
        } else {
          assert ops == [];
        }
      case Unsubscribe(symbol) =>
        if symbol in st.subscribed && c.storeFault(RemoveSubscription(symbol)).None? {
          assert ops == [RemoveSubscription(symbol)];
          assert ops[..0] == [];
        } else {
          assert ops == [];
        }
      case Query(symbol) =>
        QueryKeepsRegistry(st, c, symbol);
        PersistedPricesOnly(st.subscribed, ops);
      case SetCurrency(code) =>
        if c.isValidCurrencyCode(code) {
          RefreshKeepsRegistry(st.(currency := code), c, order);
        }
        PersistedPricesOnly(st.subscribed, ops);
      case _ =>
        assert ops == [];
    }
  }

  /**
   * After any sequence of messages, the set is exactly the one implied by the net adds and
   * removes: each symbol at most once, since it is a set.
   */
  lemma {:induction false} NetRegistryMatches(st: State, c: Collaborators, msgs: seq<Message>, orders: seq<seq<string>>)
    requires |orders| == |msgs|
    ensures HandleAll(st, c, msgs, orders).subscribed == NetRegistry(st.subscribed, c, msgs)
    decreases |msgs|
  {
    if msgs != [] {
      var n := |msgs| - 1;
      NetRegistryMatches(st, c, msgs[..n], orders[..n]);
      HandleRegistryEffect(HandleAll(st, c, msgs[..n], orders[..n]), c, msgs[n], orders[n]);
    }
  }

  /**
   * The scenario: subscribe AAPL, subscribe AAPL again, unsubscribe MSFT (never subscribed),
   * query ZZZZ. The client receives the acknowledgement and a USD quote, then three errors.
   */
  lemma ScenarioResponses(st: State, c: Collaborators)
    requires st.currency == Usd && "AAPL" !in st.subscribed && "MSFT" !in st.subscribed
    requires c.storeFault(SaveSubscription("AAPL")) == None && PricesPersist(c)
    requires c.generateQuote("AAPL").Ok?
    ensures var s1 := HandleStep(st, c, Subscribe("AAPL"), []);
      var s2 := HandleStep(s1, c, Subscribe("AAPL"), []);
      var s3 := HandleStep(s2, c, Unsubscribe("MSFT"), []);
      var s4 := HandleStep(s3, c, Query("ZZZZ"), []);
      s4.published == st.published + [
        SubscribeAck("AAPL"),
        QuoteUpdate(c.generateQuote("AAPL").value.(currency := Usd)),
        Error("Already subscribed to " + "AAPL"),
        Error("Symbol " + "MSFT" + " is not subscribed."),
        Error("Invalid symbol: " + "ZZZZ")]
  {
    MockData.ConfiguredSymbols();
    var quote := QuoteUpdate(c.generateQuote("AAPL").value.(currency := Usd));
    SubscribeAccepted(st, c, "AAPL");
    var s1 := HandleStep(st, c, Subscribe("AAPL"), []);
    assert s1.published == st.published + [SubscribeAck("AAPL"), quote];
    assert "AAPL" in s1.subscribed && "MSFT" !in s1.subscribed;
    var s2 := HandleStep(s1, c, Subscribe("AAPL"), []);
    assert s2 == Emit(s1, Error("Already subscribed to " + "AAPL"));
    var s3 := HandleStep(s2, c, Unsubscribe("MSFT"), []);
    assert s3 == Emit(s2, Error("Symbol " + "MSFT" + " is not subscribed."));
    assert "ZZZZ" !in MockData.StockConfigs();
    var s4 := HandleStep(s3, c, Query("ZZZZ"), []);
    assert s4 == Emit(s3, Error("Invalid symbol: " + "ZZZZ"));
  }

  // ---------------------------------------------------------------------------------------
  // One pass of the update loop

  /** One symbol of a pass: at most one quote published and at most one price stored. */
  lemma UpdateSymbolKeepsRegistry(st: State, c: Collaborators, symbol: string)
    ensures var r := UpdateSymbolStep(st, c, symbol);
      && r.subscribed == st.subscribed && r.currency == st.currency
      && r.published == st.published + (match c.generateQuote(symbol)
           case Ok(q) => [QuoteUpdate(OverlayByPrice(c.convertCurrency, st.currency, q))]
           case Err(_) => [])
      && st.store <= r.store && |r.store| <= |st.store| + 1 && PricesOnly(r.store[|st.store|..])
  {
  }

  /**
   * A pass changes neither the set nor the currency; it publishes only quotes and stores
   * only prices.
   */
  lemma {:induction false} UpdatePassKeepsRegistry(st: State, c: Collaborators, order: seq<string>)
    ensures var r := UpdatePassStep(st, c, order);
      && r.subscribed == st.subscribed && r.currency == st.currency
      && st.published <= r.published && QuotesOnly(r.published[|st.published|..])
      && st.store <= r.store && PricesOnly(r.store[|st.store|..])
    decreases |order|
  {
    if order != [] {
      var prefix := order[..|order| - 1];
      var mid := UpdatePassStep(st, c, prefix);
      var r := UpdatePassStep(st, c, order);
      UpdatePassKeepsRegistry(st, c, prefix);
      UpdateSymbolKeepsRegistry(mid, c, order[|order| - 1]);
      assert r.published[|st.published|..] == mid.published[|st.published|..] + r.published[|mid.published|..];
      assert r.store[|st.store|..] == mid.store[|st.store|..] + r.store[|mid.store|..];
    }
  }

  /** A pass publishes one quote per symbol that quote generation succeeds for; a failure skips only its own symbol. */
  lemma {:induction false} UpdatePassQuoteCount(st: State, c: Collaborators, order: seq<string>)
    ensures |UpdatePassStep(st, c, order).published| == |st.published| + QuotedCount(c, order)
    decreases |order|
  {
    if order != [] {
      UpdatePassQuoteCount(st, c, order[..|order| - 1]);
    }
  }

  /**
   * Every symbol of the pass that gets a quote has it published, overlaid with the currency
   * in force, whatever happens to the other symbols.
   */
  lemma {:induction false} UpdatePassReachesEverySymbol(st: State, c: Collaborators, order: seq<string>, i: nat)
    requires i < |order| && c.generateQuote(order[i]).Ok?
    ensures var r := UpdatePassStep(st, c, order);
      && st.published <= r.published
      && QuoteUpdate(OverlayByPrice(c.convertCurrency, st.currency, c.generateQuote(order[i]).value))
           in r.published[|st.published|..]
    decreases |order|
  {
    var prefix := order[..|order| - 1];
    var mid := UpdatePassStep(st, c, prefix);
    var r := UpdatePassStep(st, c, order);
    UpdatePassKeepsRegistry(st, c, prefix);
    UpdateSymbolKeepsRegistry(mid, c, order[|order| - 1]);
    assert r.published[|st.published|..] == mid.published[|st.published|..] + r.published[|mid.published|..];
    if i < |order| - 1 {
      UpdatePassReachesEverySymbol(st, c, prefix, i);
    } else {
      assert r.published[|mid.published|] == QuoteUpdate(OverlayByPrice(c.convertCurrency, mid.currency, c.generateQuote(order[i]).value));
    }
  }
}
