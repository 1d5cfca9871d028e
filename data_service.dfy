/**
 * The data service object: the subscribed set and the current currency, updated in place
 * by the command handlers, with the publisher socket and the SQLite store replaced by
 * append-only logs. Each handler is proved to leave exactly the state that the
 * corresponding function of module Dispatch gives.
 */
module Service {
  import opened Types
  import MockData
  import opened CurrencyOverlay
  import opened Dispatch

  class DataService {
    const collaborators: Collaborators
    const mockData: MockData.MockDataProvider
    var currentCurrency: string
    var subscribedStocks: set<string>
    var running: bool
    /** Every message sent on the publisher socket, oldest first. */
    var published: seq<Message>
    /** Every write the store accepted, oldest first. */
    var store: seq<StoreOp>

    /** The handlers' view of the object. */
    function Snapshot(): State
      reads this
    {
      State(currentCurrency, subscribedStocks, published, store)
    }

    /**
     * Starts in USD and running, with the set seeded from the subscriptions the store reports
     * before any write of this object; the source's constructor throws if that read fails.
     */
    constructor (c: Collaborators)
      requires c.getSubscriptions([]).Ok?
      ensures collaborators == c && running
      ensures currentCurrency == Usd
      ensures forall s :: s in subscribedStocks <==> s in c.getSubscriptions([]).value
      ensures published == [] && store == []
    {
      var restored := c.getSubscriptions([]).value;
      var seeded: set<string> := {};
      for i := 0 to |restored|
        invariant forall s :: s in seeded <==> s in restored[..i]
      {
        seeded := seeded + {restored[i]};
      }
      assert restored[..|restored|] == restored;
      collaborators := c;
      mockData := new MockData.MockDataProvider();
      currentCurrency := Usd;
      subscribedStocks := seeded;
      running := true;
      published := [];
      store := [];
    }

    /** stop: clears the running flag and nothing else. */
    method Stop()
      modifies this
      ensures !running
      ensures Snapshot() == old(Snapshot())
    {
      running := false;
    }

    /** Sends one message on the publisher socket. */
    method Publish(m: Message)
      modifies this
      ensures Snapshot() == Emit(old(Snapshot()), m)
      ensures running == old(running)
    {
      published := published + [m];
    }

    /** One store write; returns the text of the exception it throws, if it throws. */
    method Persist(op: StoreOp) returns (fault: Option<string>)
      modifies this
      ensures Outcome(Snapshot(), fault) == Write(old(Snapshot()), collaborators, op)
      ensures running == old(running)
    {
      fault := collaborators.storeFault(op);
      if fault.None? {
        store := store + [op];
      }
    }

    /** storeStockPrice: saves one price point of a symbol. */
    method StoreStockPrice(symbol: string, price: real, timestamp: int) returns (fault: Option<string>)
      modifies this
      ensures Outcome(Snapshot(), fault) == Write(old(Snapshot()), collaborators, SavePrice(symbol, price, timestamp))
      ensures running == old(running)
    {
      fault := Persist(SavePrice(symbol, price, timestamp));
    }

    method SubscribeStock(symbol: string) returns (fault: Option<string>)
      modifies this
      ensures Outcome(Snapshot(), fault) == SubscribeStep(old(Snapshot()), collaborators, symbol)
      ensures running == old(running)
    {
      fault := None;
      if mockData.IsValidSymbol(symbol) {
        if symbol !in subscribedStocks {
          subscribedStocks := subscribedStocks + {symbol};
          fault := Persist(SaveSubscription(symbol));
          if fault.Some? {
            return;
          }
          Publish(SubscribeAck(symbol));
          var generated := collaborators.generateQuote(symbol);
          if generated.Err? {
            return Some(generated.error);
          }
          var quote := OverlayByRate(collaborators.convertCurrency, currentCurrency, generated.value);
          Publish(QuoteUpdate(quote));
          fault := StoreStockPrice(symbol, quote.price, quote.timestamp);
        } else {
          Publish(Error("Already subscribed to " + symbol));
        }
      } else {
        Publish(Error("Invalid symbol: " + symbol));
      }
    }

    method UnsubscribeStock(symbol: string) returns (fault: Option<string>)
      modifies this
      ensures Outcome(Snapshot(), fault) == UnsubscribeStep(old(Snapshot()), collaborators, symbol)
      ensures running == old(running)
    {
      fault := None;
      if symbol in subscribedStocks {
        fault := Persist(RemoveSubscription(symbol));
        if fault.Some? {
          return;
        }
        subscribedStocks := subscribedStocks - {symbol};
        Publish(UnsubscribeAck(symbol));
      } else {
        Publish(Error("Symbol " + symbol + " is not subscribed."));
      }
    }

    /** queryStock: catches every exception after validation and publishes it. */
    method QueryStock(symbol: string)
      modifies this
      ensures Snapshot() == QueryStep(old(Snapshot()), collaborators, symbol)
      ensures running == old(running)
    {
      if !mockData.IsValidSymbol(symbol) {
        Publish(Error("Invalid symbol: " + symbol));
        return;
      }
      var generated := collaborators.generateQuote(symbol);
      if generated.Err? {
        Publish(Error(generated.error));
        return;
      }
      var quote := OverlayByPrice(collaborators.convertCurrency, currentCurrency, generated.value);
      Publish(QuoteUpdate(quote));
      var fault := StoreStockPrice(symbol, quote.price, quote.timestamp);
      if fault.Some? {
        Publish(Error(fault.value));
      }
    }

    method SendPriceHistory(symbol: string) returns (fault: Option<string>)
      modifies this
      ensures Outcome(Snapshot(), fault) == PriceHistoryStep(old(Snapshot()), collaborators, symbol)
      ensures running == old(running)
    {
      var history := collaborators.getPriceHistory(store, symbol);
      if history.Err? {
        return Some(history.error);
      }
      Publish(PriceHistory(symbol, history.value));
      fault := None;
    }

    method SendSubscriptionsList() returns (fault: Option<string>)
      modifies this
      ensures Outcome(Snapshot(), fault) == SubscriptionsListStep(old(Snapshot()), collaborators)
      ensures running == old(running)
    {
      var subscriptions := collaborators.getSubscriptions(store);
      if subscriptions.Err? {
        return Some(subscriptions.error);
      }
      Publish(SubscriptionsList(subscriptions.value));
      fault := None;
    }

    /**
     * The SetCurrency branch of handleMessage: a valid code becomes the currency and every
     * subscribed symbol is queried again, in the set's iteration order `order`.
     */
    method ChangeCurrency(code: string) returns (ghost order: seq<string>)
      modifies this
      ensures IsEnumeration(order, old(subscribedStocks))
      ensures Snapshot() == SetCurrencyStep(old(Snapshot()), collaborators, code, order)
      ensures running == old(running)
    {
      order := [];
      if !collaborators.isValidCurrencyCode(code) {
        Publish(Error("Invalid currency code: " + code));
        order := Enumerate(subscribedStocks);
        return;
      }
      currentCurrency := code;
      ghost var start := Snapshot();
      var remaining := subscribedStocks;
      while remaining != {}
        invariant subscribedStocks == old(subscribedStocks) && running == old(running)
        invariant remaining <= subscribedStocks
        invariant forall s :: s in order <==> s in subscribedStocks && s !in remaining
        invariant forall i, j :: 0 <= i < j < |order| ==> order[i] != order[j]
        invariant Snapshot() == RefreshStep(start, collaborators, order)
        decreases remaining
      {
        var symbol :| symbol in remaining;
        QueryKeepsRegistry(Snapshot(), collaborators, symbol);
        QueryStock(symbol);
        remaining := remaining - {symbol};
        order := order + [symbol];
      }
    }

    /** handleMessage: dispatches on the message type; an escaping exception is published as an Error. */
    method HandleMessage(msg: Message) returns (ghost order: seq<string>)
      modifies this
      ensures IsEnumeration(order, old(subscribedStocks))
      ensures Snapshot() == HandleStep(old(Snapshot()), collaborators, msg, order)
      ensures running == old(running)
    {
      order := Enumerate(subscribedStocks);
      var fault: Option<string> := None;
      match msg {
        case Subscribe(symbol) =>
          fault := SubscribeStock(symbol);
        case Unsubscribe(symbol) =>
          fault := UnsubscribeStock(symbol);
        case Query(symbol) =>
          QueryStock(symbol);
        case PriceHistoryRequest(symbol) =>
          fault := SendPriceHistory(symbol);
        case RequestSubscriptions =>
          fault := SendSubscriptionsList();
        case SetCurrency(code) =>
          order := ChangeCurrency(code);
        case _ =>
      }
      if fault.Some? {
        Publish(Error(fault.value));
      }
    }

    /** The body of the update loop for one symbol: quote, overlay, publish, store; any exception is swallowed. */
    method UpdateSymbol(symbol: string)
      modifies this
      ensures Snapshot() == UpdateSymbolStep(old(Snapshot()), collaborators, symbol)
      ensures running == old(running)
    {
      var generated := collaborators.generateQuote(symbol);
      if generated.Err? {
        return;
      }
      var quote := OverlayByPrice(collaborators.convertCurrency, currentCurrency, generated.value);
      Publish(QuoteUpdate(quote));
      var _ := StoreStockPrice(symbol, quote.price, quote.timestamp);
    }

    /** One pass of the update loop: every subscribed symbol once, in the set's iteration order `order`. */
    method UpdatePass() returns (ghost order: seq<string>)
      modifies this
      ensures IsEnumeration(order, old(subscribedStocks))
      ensures Snapshot() == UpdatePassStep(old(Snapshot()), collaborators, order)
      ensures running == old(running)
    {
      order := [];
      ghost var start := Snapshot();
      var remaining := subscribedStocks;
      while remaining != {}
        invariant subscribedStocks == old(subscribedStocks) && running == old(running)
        invariant remaining <= subscribedStocks
        invariant forall s :: s in order <==> s in subscribedStocks && s !in remaining
        invariant forall i, j :: 0 <= i < j < |order| ==> order[i] != order[j]
        invariant Snapshot() == UpdatePassStep(start, collaborators, order)
        decreases remaining
      {
        var symbol :| symbol in remaining;
        UpdateSymbol(symbol);
        UpdateSymbolKeepsRegistry(UpdatePassStep(start, collaborators, order), collaborators, symbol);
        remaining := remaining - {symbol};
        order := order + [symbol];
      }
    }
  }

  /** Some iteration order of a set: each element once. */
  ghost function Enumerate(s: set<string>): (order: seq<string>)
    ensures IsEnumeration(order, s)
    decreases s
  {
    if s == {} then []
    else
      var x :| x in s;
      var rest := Enumerate(s - {x});
      assert forall i :: 0 <= i < |rest| ==> rest[i] != x;
      rest + [x]
  }
}
