/**
 * The decision rules of the trading services: the GUI throttle, the two-sided
 * quote streamed for a price, and the algorithmic execution that crosses the
 * spread when the book is tight.
 */
module Services {
  import opened Types
  import opened Soa
  import Pricing
  import Utils

  // ---------------------------------------------------------------------------
  // GUI throttle
  // ---------------------------------------------------------------------------

  /** A price reaches the GUI only when more than this many milliseconds passed since the last one. */
  const ThrottleMs: int := 300

  /** Whether a price offered at `now` is forwarded, given the last quote time. */
  predicate Forwards(lastQuoteTime: int, now: int)
  {
    now - lastQuoteTime > ThrottleMs
  }

  /**
   * The times, among the calls made at `times`, at which a price is forwarded,
   * for a service started at `start`: one shared timer for all products.
   */
  function Published(start: int, times: seq<int>): seq<int>
  {
    if times == [] then []
    else
      var earlier := Published(start, times[..|times| - 1]);
      var now := times[|times| - 1];
      if Forwards(LastQuote(start, earlier), now) then earlier + [now] else earlier
  }

  /** The last quote time: the last forwarded time, or the start when none was forwarded. */
  function LastQuote(start: int, published: seq<int>): int
  {
    if published == [] then start else published[|published| - 1]
  }

  /** Any two consecutive forwarded prices are more than 300 ms apart, and the first is more than 300 ms after the start. */
  lemma {:induction false} PublishedSpaced(start: int, times: seq<int>)
    ensures var p := Published(start, times);
      (p != [] ==> p[0] - start > ThrottleMs)
      && forall i :: 0 < i < |p| ==> p[i] - p[i - 1] > ThrottleMs
  {
    if times != [] {
      PublishedSpaced(start, times[..|times| - 1]);
    }
  }

  /** Only call times are forwarded, in call order, and none twice. */
  lemma {:induction false} PublishedFromCalls(start: int, times: seq<int>)
    ensures |Published(start, times)| <= |times|
    ensures forall x :: x in Published(start, times) ==> x in times
  {
    if times != [] {
      var init := times[..|times| - 1];
      PublishedFromCalls(start, init);
      assert forall x :: x in init ==> x in times;
    }
  }

  /** Started at 0 and called at 100, 150 and 350: only the call at 350 is forwarded. */
  lemma ThrottleExample()
    ensures Published(0, [100, 150, 350]) == [350]
  {
    assert [100, 150, 350][..2] == [100, 150];
    assert [100, 150][..1] == [100];
    assert [100][..0] == [];
  }

  /**
   * The GUI service: it forwards a price to the GUI connector only when more
   * than 300 ms passed since the last forwarded one. The clock is the `now`
   * argument; `calls` records the times of all ProvideData calls.
   */
  class GUIService {
    var serviceStartTime: int
    var lastQuoteTime: int
    const guiConnector: Sink<Pricing.Price>
    ghost var calls: seq<int>

    ghost predicate Valid()
      reads this
    {
      lastQuoteTime == LastQuote(serviceStartTime, Published(serviceStartTime, calls))
    }

    /** The last quote time starts at the construction time. */
    constructor (connector: Sink<Pricing.Price>, now: int)
      ensures Valid() && guiConnector == connector && calls == []
      ensures serviceStartTime == now && lastQuoteTime == now
    {
      guiConnector := connector;
      serviceStartTime := now;
      lastQuoteTime := now;
      calls := [];
    }

    /**
     * Forwards the price and moves the last quote time to `now` when more than
     * 300 ms passed since it; otherwise drops the price and changes nothing.
     */
    method ProvideData(data: Pricing.Price, now: int)
      requires Valid()
      modifies this, guiConnector
      ensures Valid() && calls == old(calls) + [now]
      ensures serviceStartTime == old(serviceStartTime)
      ensures Published(serviceStartTime, calls)
                == Published(serviceStartTime, old(calls)) + (if Forwards(old(lastQuoteTime), now) then [now] else [])
      ensures Forwards(old(lastQuoteTime), now) ==>
                lastQuoteTime == now && guiConnector.received == old(guiConnector.received) + [data]
      ensures !Forwards(old(lastQuoteTime), now) ==>
                lastQuoteTime == old(lastQuoteTime) && guiConnector.received == old(guiConnector.received)
    {
      calls := calls + [now];
      assert calls[..|calls| - 1] == old(calls);
      if now - lastQuoteTime > ThrottleMs {
        lastQuoteTime := now;
        guiConnector.Receive(data);
      }
    }
  }

  // ---------------------------------------------------------------------------
  // Two-sided quote
  // ---------------------------------------------------------------------------

  /** Visible and hidden size of each leg of a streamed quote. */
  const StreamSize: int := 1000000

  /** The two-sided quote streamed for a price: the spread split evenly around the mid. */
  function QuoteFor(p: Pricing.Price): (s: PriceStream)
    ensures s.product == p.product
    ensures s.offerOrder.price - s.bidOrder.price == p.bidOfferSpread
    ensures (s.bidOrder.price + s.offerOrder.price) / 2.0 == p.mid
    ensures s.bidOrder.side == BID && s.offerOrder.side == OFFER
    ensures s.bidOrder.visibleQuantity == StreamSize && s.bidOrder.hiddenQuantity == StreamSize
    ensures s.offerOrder.visibleQuantity == StreamSize && s.offerOrder.hiddenQuantity == StreamSize
  {
    var bid := p.mid - p.bidOfferSpread / 2.0;
    var ask := p.mid + p.bidOfferSpread / 2.0;
    PriceStream(p.product, PriceStreamOrder(bid, StreamSize, StreamSize, BID),
                PriceStreamOrder(ask, StreamSize, StreamSize, OFFER))
  }

  /** The quote determines the price it came from: mid and spread are recovered from the two legs. */
  lemma QuoteDeterminesPrice(p: Pricing.Price, q: Pricing.Price)
    requires QuoteFor(p) == QuoteFor(q)
    ensures p == q
  {
    assert p.bidOfferSpread == QuoteFor(p).offerOrder.price - QuoteFor(p).bidOrder.price;
    assert p.mid == (QuoteFor(p).bidOrder.price + QuoteFor(p).offerOrder.price) / 2.0;
  }

  /** A non-negative spread never crosses the quote: bid <= mid <= offer. */
  lemma QuoteBrackets(p: Pricing.Price)
    requires p.bidOfferSpread >= 0.0
    ensures QuoteFor(p).bidOrder.price <= p.mid <= QuoteFor(p).offerOrder.price
  {
  }

  class BondAlgoStreamingService {
    const bus: Service<PriceStream>

    constructor ()
      ensures fresh(bus) && bus.listeners == [] && bus.trace == []
    {
      bus := new Service<PriceStream>();
    }

    /** Builds the two-sided quote for the price and notifies once with it. */
    method PublishPrice(data: Pricing.Price)
      modifies bus
      ensures bus.listeners == old(bus.listeners)
      ensures bus.trace == old(bus.trace) + Deliveries(bus.listeners, QuoteFor(data))
    {
      var bidPrice := data.mid - data.bidOfferSpread / 2.0;
      var askPrice := data.mid + data.bidOfferSpread / 2.0;
      var bidOrder := PriceStreamOrder(bidPrice, StreamSize, StreamSize, BID);
      var askOrder := PriceStreamOrder(askPrice, StreamSize, StreamSize, OFFER);
      bus.Notify(PriceStream(data.product, bidOrder, askOrder));
    }
  }

  // ---------------------------------------------------------------------------
  // Algorithmic execution
  // ---------------------------------------------------------------------------

  /** An execution order together with the market it goes to. */
  datatype AlgoExecution = AlgoExecution(order: ExecutionOrder, market: Market)

  /** PricingSide(counter % 2): BID is 0 and OFFER is 1. */
  function SideOf(counter: nat): (side: PricingSide)
    ensures side == BID <==> counter % 2 == 0
  {
    if counter % 2 == 0 then BID else OFFER
  }

  /** static_cast<long>(q * 0.9): q * 9 / 10 truncated toward zero. */
  function HiddenQuantity(q: int): (h: int)
    ensures q >= 0 ==> 0 <= 10 * h <= 9 * q < 10 * h + 10
    ensures q < 0 ==> 10 * h - 10 < 9 * q <= 10 * h <= 0
  {
    if q >= 0 then q * 9 / 10 else -((-q) * 9 / 10)
  }

  /** A whole number of millions keeps exactly nine tenths hidden. */
  lemma HiddenQuantityOfMillions(k: nat)
    ensures HiddenQuantity(k * 1000000) == k * 900000
  {
  }

  /** std::to_string of a non-negative counter: its decimal digits, most significant first. */
  function DecimalString(n: nat): (s: string)
    ensures |s| >= 1
    ensures forall i :: 0 <= i < |s| ==> '0' <= s[i] <= '9'
    ensures |s| > 1 ==> s[0] != '0'
  {
    if n < 10 then [Utils.DigitChar(n)] else DecimalString(n / 10) + [Utils.DigitChar(n % 10)]
  }

  /** The number a string of decimal digits denotes. */
  function DecimalValue(s: string): int
  {
    if s == [] then 0 else 10 * DecimalValue(s[..|s| - 1]) + Utils.DigitValue(s[|s| - 1])
  }

  /** Reading back a counter's decimal string gives the counter. */
  lemma {:induction false} DecimalRoundTrip(n: nat)
    ensures DecimalValue(DecimalString(n)) == n
  {
    if n >= 10 {
      DecimalRoundTrip(n / 10);
      var s := DecimalString(n);
      assert s[..|s| - 1] == DecimalString(n / 10);
    }
  }

  /** Distinct counters give distinct order ids. */
  lemma DecimalStringInjective(m: nat, n: nat)
    requires DecimalString(m) == DecimalString(n)
    ensures m == n
  {
    DecimalRoundTrip(m);
    DecimalRoundTrip(n);
  }

  /**
   * The execution built for a book once the global counter has reached
   * `counter`: on BID it takes the best bid price and the best offer's size,
   * on OFFER the best offer price and the best bid's size.
   */
  function AlgoExecutionFor(book: OrderBook, counter: nat): (a: AlgoExecution)
    requires |book.bidStack| > 0 && |book.offerStack| > 0
    ensures a.market == CME
    ensures a.order.product == book.product && a.order.side == SideOf(counter)
    ensures a.order.side == BID ==>
              a.order.price == book.bidStack[0].price && a.order.visibleQuantity == book.offerStack[0].quantity
    ensures a.order.side == OFFER ==>
              a.order.price == book.offerStack[0].price && a.order.visibleQuantity == book.bidStack[0].quantity
    ensures a.order.hiddenQuantity == HiddenQuantity(a.order.visibleQuantity)
    ensures a.order.orderType == MARKET && !a.order.isChildOrder
    ensures a.order.orderId == DecimalString(counter) && a.order.parentOrderId == a.order.orderId
  {
    var side := SideOf(counter);
    var id := DecimalString(counter);
    var price := if side == BID then book.bidStack[0].price else book.offerStack[0].price;
    var quantity := if side == BID then book.offerStack[0].quantity else book.bidStack[0].quantity;
    AlgoExecution(ExecutionOrder(book.product, side, id, MARKET, price, quantity,
                                 HiddenQuantity(quantity), id, false), CME)
  }

  /** Consecutive executions alternate sides and never share an order id. */
  lemma ConsecutiveExecutionsAlternate(b1: OrderBook, b2: OrderBook, counter: nat)
    requires |b1.bidStack| > 0 && |b1.offerStack| > 0 && |b2.bidStack| > 0 && |b2.offerStack| > 0
    ensures AlgoExecutionFor(b1, counter).order.side != AlgoExecutionFor(b2, counter + 1).order.side
    ensures AlgoExecutionFor(b1, counter).order.orderId != AlgoExecutionFor(b2, counter + 1).order.orderId
  {
    if DecimalString(counter) == DecimalString(counter + 1) {
      DecimalStringInjective(counter, counter + 1);
    }
  }

  /**
   * The counter shared by every AlgoExecution construction (a static member
   * in the source); it starts at 0.
   */
  class AlgoExecutionCounter {
    var counter: nat

    constructor ()
      ensures counter == 0
    {
      counter := 0;
    }

    /** The AlgoExecution constructor: increments the counter, then builds from its new value. */
    method NewAlgoExecution(book: OrderBook) returns (a: AlgoExecution)
      requires |book.bidStack| > 0 && |book.offerStack| > 0
      modifies this
      ensures counter == old(counter) + 1
      ensures a == AlgoExecutionFor(book, counter)
    {
      counter := counter + 1;
      var side := if counter % 2 == 0 then BID else OFFER;
      var orderId := DecimalString(counter);
      var price: real;
      var quantity: int;
      if side == BID {
        price := book.bidStack[0].price;
        quantity := book.offerStack[0].quantity;
      } else {
        price := book.offerStack[0].price;
        quantity := book.bidStack[0].quantity;
      }
      a := AlgoExecution(ExecutionOrder(book.product, side, orderId, MARKET, price, quantity,
                                        HiddenQuantity(quantity), orderId, false), CME);
    }
  }

  /** The widest spread at which the service crosses: 1/127. */
  const Tolerance: real := 1.0 / 127.0

  /** Whether best offer minus best bid is within the tolerance. */
  predicate Crosses(book: OrderBook)
    requires |book.bidStack| > 0 && |book.offerStack| > 0
  {
    book.offerStack[0].price - book.bidStack[0].price <= Tolerance
  }

  /** The tightest tick, 1/128, crosses; 0.02 does not. */
  lemma ToleranceExamples(bond: Bond)
    ensures Crosses(OrderBook(bond, [Order(99.5, 1000000, BID)], [Order(99.5 + 1.0 / 128.0, 1000000, OFFER)]))
    ensures !Crosses(OrderBook(bond, [Order(99.5, 1000000, BID)], [Order(99.52, 1000000, OFFER)]))
  {
  }

  class BondAlgoExecutionService {
    const bus: Service<AlgoExecution>
    const executions: AlgoExecutionCounter

    constructor (counter: AlgoExecutionCounter)
      ensures fresh(bus) && bus.listeners == [] && bus.trace == [] && executions == counter
    {
      bus := new Service<AlgoExecution>();
      executions := counter;
    }

    /**
     * When the spread is within 1/127, builds one AlgoExecution (advancing the
     * shared counter) and notifies once with it; otherwise does nothing. Both
     * stacks must be non-empty: the source reads element 0 unchecked.
     */
    method Execute(book: OrderBook)
      requires |book.bidStack| > 0 && |book.offerStack| > 0
      modifies bus, executions
      ensures bus.listeners == old(bus.listeners)
      ensures Crosses(book) ==>
                executions.counter == old(executions.counter) + 1
                && bus.trace == old(bus.trace) + Deliveries(bus.listeners, AlgoExecutionFor(book, executions.counter))
      ensures !Crosses(book) ==>
                executions.counter == old(executions.counter) && bus.trace == old(bus.trace)
    {
      var bestBid := book.bidStack[0].price;
      var bestOffer := book.offerStack[0].price;
      var spread := bestOffer - bestBid;
      if spread <= Tolerance {
        var execution := executions.NewAlgoExecution(book);
        bus.Notify(execution);
      }
    }
  }
}
