/**
 * The record-level logic of the connectors: the per-line decoders of trades,
 * prices, order books and inquiries, the order-book build, the inquiry
 * connector's RECEIVED -> QUOTED -> DONE republish, and the field computations
 * of the outbound records. A line reaches a decoder as its comma-split tokens
 * (Utils.ParseCommaSepLine, that is Utils.SplitComma); the file loops, the
 * timestamps and the text formatting of numbers are not part of this model.
 */
module Connectors {
  import opened Types
  import opened Soa
  import Utils
  import Positions
  import Risk
  import Pricing
  import Services

  // ---------------------------------------------------------------------------
  // Side and state names
  // ---------------------------------------------------------------------------

  /** The name a trade or inquiry side is written and read as. */
  function SideName(side: Side): (s: string)
    ensures s == "BUY" <==> side == BUY
  {
    if side == BUY then "BUY" else "SELL"
  }

  /** Reads a side the way every decoder does: "BUY" is BUY, anything else SELL. */
  function SideFromName(s: string): (side: Side)
    ensures side == BUY <==> s == "BUY"
  {
    if s == "BUY" then BUY else SELL
  }

  /** Reading a written side gives the side back. */
  lemma SideNameRoundTrip(side: Side)
    ensures SideFromName(SideName(side)) == side
  {
  }

  /** An execution order's side as written: BID is "BUY" and anything else "SELL". */
  function ExecutionSideName(side: PricingSide): (s: string)
    ensures s == "BUY" <==> side == BID
    ensures s == "BUY" || s == "SELL"
  {
    if side == BID then "BUY" else "SELL"
  }

  /** An inquiry state as written: its literal name. */
  function StateName(st: InquiryState): (s: string)
    ensures s != [] && Utils.NoComma(s)
  {
    match st
    case RECEIVED => "RECEIVED"
    case QUOTED => "QUOTED"
    case DONE => "DONE"
    case REJECTED => "REJECTED"
  }

  /** The state a name stands for, if any. */
  function StateFromName(s: string): (r: Option<InquiryState>)
    ensures forall st: InquiryState :: r == Some(st) <==> StateName(st) == s
  {
    if s == "RECEIVED" then Some(RECEIVED)
    else if s == "QUOTED" then Some(QUOTED)
    else if s == "DONE" then Some(DONE)
    else if s == "REJECTED" then Some(REJECTED)
    else None
  }

  /** Every state is written under a name that reads back as that state, so no two share a name. */
  lemma StateNameRoundTrip(st: InquiryState)
    ensures StateFromName(StateName(st)) == Some(st)
    ensures forall other: InquiryState :: StateName(other) == StateName(st) ==> other == st
  {
    forall other: InquiryState | StateName(other) == StateName(st) ensures other == st {
      assert StateFromName(StateName(other)) == Some(other);
    }
  }

  // ---------------------------------------------------------------------------
  // Trades
  // ---------------------------------------------------------------------------

  /**
   * One trade line: ticker, trade id, book, quantity, price, side. Lines of
   * fewer than six tokens are skipped. The bond is the table's operator[]
   * lookup (a default bond for an unknown ticker); `toLong` and `toDouble`
   * stand for std::stol and std::stod.
   */
  function DecodeTrade(tokens: seq<string>, toLong: string -> int, toDouble: string -> real): (r: Option<Trade>)
    ensures r.None? <==> |tokens| < 6
    ensures r.Some? ==>
              && r.value.product == Utils.LookupBond(tokens[0])
              && r.value.tradeId == tokens[1] && r.value.book == tokens[2]
              && r.value.quantity == toLong(tokens[3]) && r.value.price == toDouble(tokens[4])
              && (r.value.side == BUY <==> tokens[5] == "BUY")
  {
    if |tokens| < 6 then None
    else
      Some(Trade(Utils.LookupBond(tokens[0]), tokens[1], toDouble(tokens[4]), tokens[2],
                 toLong(tokens[3]), SideFromName(tokens[5])))
  }

  /** The tokens a trade of a listed bond is written as, given how its quantity and price are written. */
  function TradeTokens(t: Trade, quantityText: string, priceText: string): seq<string>
  {
    [t.product.ticker, t.tradeId, t.book, quantityText, priceText, SideName(t.side)]
  }

  /**
   * A trade of a listed bond, written as a line and read back, is the same
   * trade, provided its fields hold no comma and the number conversions read
   * back what was written.
   */
  lemma TradeLineRoundTrip(t: Trade, quantityText: string, priceText: string,
                           toLong: string -> int, toDouble: string -> real)
    requires t.product.ticker in Utils.ProductTable() && t.product == Utils.ProductTable()[t.product.ticker]
    requires toLong(quantityText) == t.quantity && toDouble(priceText) == t.price
    requires forall s :: s in TradeTokens(t, quantityText, priceText) ==> Utils.NoComma(s)
    ensures DecodeTrade(Utils.SplitComma(Utils.Join(TradeTokens(t, quantityText, priceText), ",")),
                        toLong, toDouble) == Some(t)
  {
    var ts := TradeTokens(t, quantityText, priceText);
    Utils.SplitJoinComma(ts);
    SideNameRoundTrip(t.side);
  }

  // ---------------------------------------------------------------------------
  // Prices
  // ---------------------------------------------------------------------------

  /**
   * One price line: ticker, bid, ask in fractional notation. Lines of fewer
   * than three tokens or with an unknown ticker are skipped; otherwise the
   * price has the mid and the width of the two.
   */
  function DecodePrice(tokens: seq<string>): (r: Option<Pricing.Price>)
    requires |tokens| >= 3 && tokens[0] in Utils.ProductTable() ==>
               Utils.PriceReadable(tokens[1]) && Utils.PriceReadable(tokens[2])
    ensures r.None? <==> |tokens| < 3 || tokens[0] !in Utils.ProductTable()
    ensures r.Some? ==>
              var bid := Utils.DecodeFractionalPrice(tokens[1]);
              var ask := Utils.DecodeFractionalPrice(tokens[2]);
              && r.value.product == Utils.ProductTable()[tokens[0]]
              && r.value.mid == (bid + ask) / 2.0
              && r.value.bidOfferSpread == ask - bid
  {
    if |tokens| < 3 || tokens[0] !in Utils.ProductTable() then None
    else
      var bid := Utils.DecodeFractionalPrice(tokens[1]);
      var ask := Utils.DecodeFractionalPrice(tokens[2]);
      Some(Pricing.Price(Utils.ProductTable()[tokens[0]], (bid + ask) / 2.0, ask - bid))
  }

  /**
   * The quote streamed for a decoded price gives back the line's bid and ask
   * exactly, and it is crossed only when the line's bid is above its ask.
   */
  lemma DecodedPriceQuotesBack(tokens: seq<string>)
    requires |tokens| >= 3 && tokens[0] in Utils.ProductTable()
    requires Utils.PriceReadable(tokens[1]) && Utils.PriceReadable(tokens[2])
    ensures DecodePrice(tokens).Some?
    ensures var q := Services.QuoteFor(DecodePrice(tokens).value);
              && q.bidOrder.price == Utils.DecodeFractionalPrice(tokens[1])
              && q.offerOrder.price == Utils.DecodeFractionalPrice(tokens[2])
  {
    var bid := Utils.DecodeFractionalPrice(tokens[1]);
    var ask := Utils.DecodeFractionalPrice(tokens[2]);
    var p := DecodePrice(tokens).value;
    assert p.mid - p.bidOfferSpread / 2.0 == bid;
    assert p.mid + p.bidOfferSpread / 2.0 == ask;
  }

  // ---------------------------------------------------------------------------
  // Order books
  // ---------------------------------------------------------------------------

  /** The number of levels on each side of a built order book. */
  const Depth: nat := 5

  /** The size of every order at level i (counting from 0): 1,000,000 times (i + 1). */
  function LevelSize(i: nat): int
  {
    1000000 * (i + 1)
  }

  /** Deeper levels are larger. */
  lemma LevelSizesIncrease(i: nat, j: nat)
    requires i < j
    ensures 0 < LevelSize(i) < LevelSize(j)
  {
  }

  /**
   * Five levels a side: level i bids px[2i] and offers px[2i+1], both of size
   * 1,000,000 (i + 1). The prices come in bid/ask pairs, best first.
   */
  method BuildOrderBook(product: Bond, px: seq<real>) returns (book: OrderBook)
    requires |px| >= 2 * Depth
    ensures book.product == product
    ensures |book.bidStack| == Depth && |book.offerStack| == Depth
    ensures forall i :: 0 <= i < Depth ==>
              book.bidStack[i] == Order(px[2 * i], LevelSize(i), BID)
              && book.offerStack[i] == Order(px[2 * i + 1], LevelSize(i), OFFER)
    ensures Services.Crosses(book) <==> px[1] - px[0] <= Services.Tolerance
  {
    var bidStack: seq<Order> := [];
    var askStack: seq<Order> := [];
    for i := 0 to Depth
      invariant |bidStack| == i && |askStack| == i
      invariant forall k :: 0 <= k < i ==>
                  bidStack[k] == Order(px[2 * k], LevelSize(k), BID)
                  && askStack[k] == Order(px[2 * k + 1], LevelSize(k), OFFER)
    {
      var bidP := px[2 * i];
      var askP := px[2 * i + 1];
      var size := 1000000 * (i + 1);
      bidStack := bidStack + [Order(bidP, size, BID)];
      askStack := askStack + [Order(askP, size, OFFER)];
    }
    book := OrderBook(product, bidStack, askStack);
  }

  /**
   * Why the order-book decoder reads prices with the corrected decoder: as
   * written, a best bid of "99-16+" and a best offer of "99-17" give a
   * negative spread, so the book crosses and triggers an execution; read as
   * intended the spread is 1/64, above the tolerance, and it does not.
   */
  lemma PlusBidCrossesAsWritten()
    ensures Utils.PriceReadable("99-16+") && Utils.PriceReadable("99-17")
    ensures Utils.ParsePriceFormat("99-17") - Utils.ParsePriceFormat("99-16+") < 0.0
    ensures Utils.DecodeFractionalPrice("99-17") - Utils.DecodeFractionalPrice("99-16+") == 1.0 / 64.0
    ensures 1.0 / 64.0 > Services.Tolerance
  {
    assert Utils.CharAt("99-16+", 0) == '9' && Utils.CharAt("99-16+", 5) == '+';
    assert Utils.CharAt("99-17", 0) == '9' && Utils.CharAt("99-17", 5) == '\0';
  }

  /** No ticker of the product table is empty, so an empty line never names a product. */
  lemma EmptyTickerUnlisted()
    ensures "" !in Utils.ProductTable()
  {
    Utils.ProductTableKeys();
  }

  /**
   * One order-book line: the parsed ticker must be in the product table
   * (otherwise the line is skipped); the book is then built from the first
   * ten prices, which the line must therefore hold. The line is split and its
   * ticker taken as Utils.ParseOrderBook does, but each price is read by the
   * corrected decoder rather than by ParsePriceFormat.
   */
  method DecodeOrderBook(line: string) returns (r: Option<OrderBook>)
    requires Utils.OrderBookTokensReadable(Utils.SplitComma(line))
    requires var tokens := Utils.SplitComma(line);
               tokens != [] && tokens[0] in Utils.ProductTable() ==> |tokens| >= 2 * Depth + 1
    ensures var tokens := Utils.SplitComma(line);
              r.None? <==> tokens == [] || tokens[0] !in Utils.ProductTable()
    ensures var tokens := Utils.SplitComma(line);
              r.Some? ==>
                && r.value.product == Utils.ProductTable()[tokens[0]]
                && |r.value.bidStack| == Depth && |r.value.offerStack| == Depth
                && forall i :: 0 <= i < Depth ==>
                     && r.value.bidStack[i]
                          == Order(Utils.DecodeFractionalPrice(tokens[2 * i + 1]), LevelSize(i), BID)
                     && r.value.offerStack[i]
                          == Order(Utils.DecodeFractionalPrice(tokens[2 * i + 2]), LevelSize(i), OFFER)
  {
    EmptyTickerUnlisted();
    var tokens := Utils.ParseCommaSepLine(line);
    var productMap := Utils.GetProductMap();
    if tokens == [] || tokens[0] !in productMap {
      return None;
    }
    var px := seq(2 * Depth, i requires 0 <= i < 2 * Depth && Utils.PriceReadable(tokens[i + 1])
                                => Utils.DecodeFractionalPrice(tokens[i + 1]));
    var book := BuildOrderBook(productMap[tokens[0]], px);
    r := Some(book);
  }

  // ---------------------------------------------------------------------------
  // Inquiries
  // ---------------------------------------------------------------------------

  /** The quantity every inquiry is read with. */
  const InquiryQuantity: int := 1000000

  /**
   * One inquiry line: inquiry id, ticker, side. Lines of fewer than three
   * tokens are skipped; the inquiry is RECEIVED for 1,000,000 at price -1.
   */
  function DecodeInquiry(tokens: seq<string>): (r: Option<Inquiry>)
    ensures r.None? <==> |tokens| < 3
    ensures r.Some? ==>
              && r.value.inquiryId == tokens[0]
              && r.value.product == Utils.LookupBond(tokens[1])
              && (r.value.side == BUY <==> tokens[2] == "BUY")
              && r.value.quantity == InquiryQuantity && r.value.price == -1.0
              && r.value.state == RECEIVED
  {
    if |tokens| < 3 then None
    else Some(Inquiry(tokens[0], Utils.LookupBond(tokens[1]), SideFromName(tokens[2]),
                      InquiryQuantity, -1.0, RECEIVED))
  }

  /**
   * What the inquiry connector sends back for an inquiry it publishes: for a
   * RECEIVED one, a QUOTED copy and then a DONE copy; for any other, nothing.
   */
  function InquiryReplies(data: Inquiry): (r: seq<Inquiry>)
    ensures r == [] <==> data.state != RECEIVED
    ensures r != [] ==> |r| == 2 && r[0].state == QUOTED && r[1].state == DONE
    ensures forall i :: 0 <= i < |r| ==> r[i].(state := data.state) == data
  {
    if data.state == RECEIVED then [data.(state := QUOTED), data.(state := DONE)] else []
  }

  /** Replies are never RECEIVED, so publishing a reply again sends nothing more. */
  lemma RepliesAreFinal(data: Inquiry)
    ensures forall i :: 0 <= i < |InquiryReplies(data)| ==> InquiryReplies(InquiryReplies(data)[i]) == []
  {
  }

  /**
   * A decoded line published once yields its QUOTED and DONE copies, which
   * differ from what was read in the state alone.
   */
  lemma DecodedInquiryIsAnswered(tokens: seq<string>)
    requires |tokens| >= 3
    ensures var d := DecodeInquiry(tokens).value;
              InquiryReplies(d) == [d.(state := QUOTED), d.(state := DONE)]
  {
  }

  class InquiryConnector {
    const inquiryService: Sink<Inquiry>

    constructor (service: Sink<Inquiry>)
      ensures inquiryService == service
    {
      inquiryService := service;
    }

    /** Sends a copy set to QUOTED and then one set to DONE, for a RECEIVED inquiry only. */
    method Publish(data: Inquiry)
      modifies inquiryService
      ensures inquiryService.received == old(inquiryService.received) + InquiryReplies(data)
    {
      if data.state == RECEIVED {
        var q := data.(state := QUOTED);
        inquiryService.Receive(q);
        q := q.(state := DONE);
        inquiryService.Receive(q);
      }
    }

    /** Passes an inbound inquiry to the service as it is. */
    method OnMessage(data: Inquiry)
      modifies inquiryService
      ensures inquiryService.received == old(inquiryService.received) + [data]
    {
      inquiryService.Receive(data);
    }
  }

  // ---------------------------------------------------------------------------
  // Outbound records
  // ---------------------------------------------------------------------------

  /** A position line: time, ticker, the three books, the aggregate. */
  datatype PositionRecord = PositionRecord(time: int, ticker: string, trsy1: int, trsy2: int,
                                           trsy3: int, aggregate: int)

  /**
   * The position line: each book column is the signed sum of the trades
   * booked there, and the aggregate is their sum, the net of all trades.
   */
  function PositionRecordOf(p: Positions.Position, now: int): (r: PositionRecord)
    reads p
    requires p.Valid()
    ensures r.ticker == p.product.ticker
    ensures r.aggregate == r.trsy1 + r.trsy2 + r.trsy3
    ensures r.aggregate == Positions.NetQuantity(p.entries)
    ensures r.trsy1 == Positions.SignedSum(p.entries, "TRSY1")
    ensures r.trsy2 == Positions.SignedSum(p.entries, "TRSY2")
    ensures r.trsy3 == Positions.SignedSum(p.entries, "TRSY3")
  {
    Positions.AggregateIsNetQuantity(p.entries);
    Positions.BooksAreSignedSums(p.entries);
    var p1 := p.positions["TRSY1"];
    var p2 := p.positions["TRSY2"];
    var p3 := p.positions["TRSY3"];
    PositionRecord(now, p.product.ticker, p1, p2, p3, p1 + p2 + p3)
  }

  /** A risk line: time, ticker, total risk. */
  datatype RiskRecord = RiskRecord(time: int, ticker: string, totalRisk: real)

  function RiskRecordOf(data: Risk.PV01, now: int): (r: RiskRecord)
    ensures r.time == now && r.ticker == data.product.ticker && r.totalRisk == Risk.RiskOf(data)
  {
    RiskRecord(now, data.product.ticker, data.pv01 * data.quantity as real)
  }

  /**
   * The risk line of a record the risk service built from a position is the
   * fixed PV01 times the position's net quantity.
   */
  lemma RiskRecordOfPosition(p: Positions.Position, now: int)
    requires p.Valid()
    ensures Positions.BookSet() <= p.positions.Keys
    ensures var data := Risk.PV01(p.product, Risk.FixedPV01, Positions.AggregateOf(p.positions));
              RiskRecordOf(data, now).totalRisk == Risk.RiskOf(data)
              && RiskRecordOf(data, now).totalRisk == 0.02 * Positions.NetQuantity(p.entries) as real
  {
    Positions.AggregateIsNetQuantity(p.entries);
  }

  /** A GUI line: time, ticker, mid, spread. */
  datatype GUIRecord = GUIRecord(time: int, ticker: string, mid: real, spread: real)

  function GUIRecordOf(data: Pricing.Price, now: int): (r: GUIRecord)
    ensures var q := Services.QuoteFor(data);
              r.spread == q.offerOrder.price - q.bidOrder.price
              && r.mid == (q.bidOrder.price + q.offerOrder.price) / 2.0
  {
    GUIRecord(now, data.product.ticker, data.mid, data.bidOfferSpread)
  }

  /** A streaming line: time, ticker, bid price, offer price. */
  datatype StreamRecord = StreamRecord(time: int, ticker: string, bid: real, offer: real)

  function StreamRecordOf(data: PriceStream, now: int): (r: StreamRecord)
    ensures forall p :: data == Services.QuoteFor(p) ==>
              r.ticker == p.product.ticker && r.offer - r.bid == p.bidOfferSpread && (r.bid + r.offer) / 2.0 == p.mid
  {
    StreamRecord(now, data.product.ticker, data.bidOrder.price, data.offerOrder.price)
  }

  /**
   * The streaming line of a streamed price and the GUI line of the same price
   * agree: the offer minus the bid is the GUI spread and their midpoint the GUI mid.
   */
  lemma StreamAndGUIRecordsAgree(p: Pricing.Price, now: int)
    ensures var s := StreamRecordOf(Services.QuoteFor(p), now);
            var g := GUIRecordOf(p, now);
              s.ticker == g.ticker && s.offer - s.bid == g.spread && (s.bid + s.offer) / 2.0 == g.mid
  {
  }

  /** An execution line: time, ticker, "TID_" id, order type, side, price, visible, hidden. */
  datatype ExecutionRecord = ExecutionRecord(time: int, ticker: string, orderTag: string,
                                             orderType: string, side: string, price: real,
                                             visibleQuantity: int, hiddenQuantity: int)

  /** The order type column is always "MarketOrder", whatever the order's type. */
  function ExecutionRecordOf(data: ExecutionOrder, now: int): (r: ExecutionRecord)
    ensures r.orderType == "MarketOrder"
    ensures r.side == "BUY" <==> data.side == BID
  {
    ExecutionRecord(now, data.product.ticker, "TID_" + data.orderId, "MarketOrder",
                    ExecutionSideName(data.side), data.price, data.visibleQuantity, data.hiddenQuantity)
  }

  /**
   * Two executions the algo service builds with different counters are
   * written with different order tags.
   */
  lemma {:induction false} ExecutionTagsDistinct(book: OrderBook, m: nat, n: nat, now: int)
    requires |book.bidStack| > 0 && |book.offerStack| > 0
    requires m != n
    ensures ExecutionRecordOf(Services.AlgoExecutionFor(book, m).order, now).orderTag
            != ExecutionRecordOf(Services.AlgoExecutionFor(book, n).order, now).orderTag
  {
    var a := "TID_" + Services.DecimalString(m);
    var b := "TID_" + Services.DecimalString(n);
    if a == b {
      assert a[4..] == Services.DecimalString(m);
      assert b[4..] == Services.DecimalString(n);
      Services.DecimalStringInjective(m, n);
    }
  }

  /** An inquiry line: time, "TID_" id, ticker, side, price, state. */
  datatype InquiryRecord = InquiryRecord(time: int, inquiryTag: string, ticker: string, side: string,
                                         price: real, state: string)

  function InquiryRecordOf(data: Inquiry, now: int): (r: InquiryRecord)
    ensures SideFromName(r.side) == data.side && StateFromName(r.state) == Some(data.state)
  {
    InquiryRecord(now, "TID_" + data.inquiryId, data.product.ticker, SideName(data.side), data.price,
                  StateName(data.state))
  }

  /**
   * An inquiry line can be read back: its side column gives the side and its
   * state column the state.
   */
  lemma InquiryRecordReadsBack(data: Inquiry, now: int)
    ensures SideFromName(InquiryRecordOf(data, now).side) == data.side
    ensures StateFromName(InquiryRecordOf(data, now).state) == Some(data.state)
  {
    SideNameRoundTrip(data.side);
    StateNameRoundTrip(data.state);
  }
}
