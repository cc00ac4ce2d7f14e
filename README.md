# Fixed-income back office: service fabric and domain rules in Dafny

This project models the synchronous publish/subscribe core of a C++ bond
trading back office. It proves what each piece promises.

The modelled pieces:

- **Service fabric** (`Soa`). A service keeps an ordered listener list.
  `Notify` makes one add-callback per registered listener, in registration order.
  Each callback is recorded as a `Delivery` in the service's `trace`, so the
  contracts can say exactly what every listener was handed.
- **Positions** (`Positions`). Every product has a position with three books,
  TRSY1, TRSY2 and TRSY3.
  - A BUY adds its quantity to its book; any other side subtracts it.
  - The aggregate is the sum of the three books.
  - Each position keeps the ghost history of the entries booked into it. The
    invariant `Position.Valid` ties the books to that history.
  - It is proved that each book is the signed sum of the trades booked there,
    and that the aggregate is the net traded quantity.
- **Risk** (`Risk`). A position becomes a PV01 record carrying the fixed PV01
  of 0.02 and the position's aggregate.
- **Pricing** (`Pricing`). There is one stored price per ticker; the latest
  message replaces the earlier one.
- **Downstream services** (`Services`):
  - the GUI throttle, which forwards only after more than 300 ms since the last forwarded quote;
  - the two-sided quote streamed for a price;
  - the algorithmic executions, which run only when the spread is at most 1/127.
    They alternate sides by a global counter, and their hidden quantity is 90%
    of the visible one, truncated.
- **Reference data and parsers** (`Utils`):
  - the seven-bond product table;
  - comma splitting, with and without skipping a character after each comma;
  - the fractional price decoder ("99-16+");
  - the order-book line tokeniser.
- **Listeners** (`Listeners`). These are the thirteen listener classes that
  wire the services together.
- **Connectors** (`Connectors`). These cover the per-line decoders of trades,
  prices, order books and inquiries; the order-book build; the inquiry
  republish RECEIVED → QUOTED → DONE; and the fields of the outbound records.

### Modelling choices

- C++ inheritance from `Service` becomes composition: each concrete service
  holds a `const bus: Soa.Service<V>`.
- Services whose code is not part of this model (historical data, streaming,
  execution, inquiry, trade booking, the GUI connector's file) become
  `Soa.Sink<V>`, which records what it receives.
- The current time in milliseconds is a parameter (`now`).
- `std::stol` and `std::stod` are function parameters of the trade decoder.
- Prices are exact reals and quantities unbounded integers.

Behaviour of the code worth knowing before reading the contracts:

- **GUI throttle at start.** A quote at the service's start time is not
  forwarded, because 0 − 0 > 300 is false (`Services.ThrottleExample`). The
  code keeps one last-quote time for all products, not one per product.
- **Inquiry price.** A decoded inquiry's price stays −1: nothing in the core
  assigns it.
- **Price decoding.** The price notation is 32nds with an optional third
  character: a digit for 256ths or '+' for half a 32nd. The comment on the
  decoder reads "100-25+" as "slightly more", so '+' adds to the price, and
  the price connector's comment gives "99-16" as a typical price. As written, the
  decoder reads "99-16" as 99.3125 and "100-08+" as 100.23046875; see
  Findings. `Utils.ParsePriceFormat` and `Utils.ParseOrderBook` model the
  decoder as written; the connectors' decoders use the corrected one.
- **Price width.** A price string starting with '9' is read with whole part
  99, and any other with a three-digit whole part of 100, as the code does.
  The generated bids and asks range from 98 to 102, so a "98-NN" price reads
  one point high and a "101-NN" price one point low, under either decoder.
- **Inquiry states.** The code never moves an inquiry to REJECTED.

## Model

| member | source | states |
|---|---|---|
| Soa.Deliveries | src/soa.hpp:62-64 | a notification is one add-callback per registered listener, in registration order, each carrying the notified data |
| Soa.DeliveriesOnlyAdd | src/soa.hpp:62-64 | Notify never calls ProcessRemove or ProcessUpdate, calls only registered listeners, and passes only the notified data |
| Soa.DeliveriesPerListener | src/soa.hpp:53-64 | a listener registered k times is called exactly k times per notification |
| Soa.Service.constructor | src/soa.hpp:41-45 | a new service has no listeners and has made no callbacks |
| Soa.Service.OnMessage | src/soa.hpp:52 | the base OnMessage changes nothing |
| Soa.Service.AddListener | src/soa.hpp:53-55 | the listener is appended at the end and no callback is made |
| Soa.Service.GetListeners | src/soa.hpp:58-60 | the listeners come back in registration order |
| Soa.Service.Notify | src/soa.hpp:62-64 | the listener list is unchanged and the callbacks made are exactly one add per listener, in order |
| Soa.Connector.Publish | src/soa.hpp:80 | the base Publish changes nothing |
| Soa.NotifyAfterRegistration | src/soa.hpp:53-64 | registering k listeners and notifying once makes exactly k add-callbacks, in registration order |
| Utils.Products | src/utils.hpp:56-67 | seven bonds, each with product id and ticker equal to the matching entry of the ticker list |
| Utils.Tickers | src/utils.hpp:70-73 | seven distinct, non-empty tickers, none containing a comma |
| Utils.KeyedByIdSpec | src/utils.hpp:47-52 | the map built by inserting the bonds by product id has exactly their ids as keys, each mapped to a listed bond with that id |
| Utils.ProductTableKeys | src/utils.hpp:33-73 | the product map's keys are exactly the seven tickers, and each maps to the bond whose id and ticker are that key |
| Utils.GetProductMap | src/utils.hpp:33-53 | the loop's map is the product table: keys are the tickers, and values carry their key as product id |
| Utils.InsertById | src/utils.hpp:48-51 | the insert loop builds the map keyed by product id, keeping the first bond of a repeated id |
| Utils.LookupBond | src/connectors.hpp:72 | operator[] on the product map: a listed ticker gives its bond |
| Utils.SplitCommaNoComma | src/utils.hpp:104-114 | no token split off a line contains a comma |
| Utils.JoinSplitComma | src/utils.hpp:104-114 | joining the tokens with commas gives back the line, less one final comma |
| Utils.SplitJoinComma | src/utils.hpp:104-114 | comma-free tokens, the last non-empty, joined with commas split back into the same tokens |
| Utils.GetToken | src/utils.hpp:109 | one getline step: the text up to the next comma or the end |
| Utils.ParseCommaSepLine | src/utils.hpp:104-114 | the loop yields exactly the comma-separated tokens, empty ones included, none after a final comma |
| Utils.SplitSkippingJoin | src/utils.hpp:89-101 | tokens written as "a, b, c" come back from Parse unchanged |
| Utils.Parse | src/utils.hpp:89-101 | the loop yields the comma-separated tokens, skipping one character after each comma |
| Utils.FormatFractionalShape | data_generator.cpp:208-219 | a quoted price "99-16", "99-16+" or "99-163" has whole part, 32nds and tail in the positions the decoder reads |
| Utils.FractionalRoundTrip | src/utils.hpp:116-141 | for handles 99 and 100, the corrected decoder gives back the value of a quoted price: whole + n/32 + tail/256, where '+' is 4/256 |
| Utils.DecodersAgree | src/utils.hpp:136-140 | when a third fraction digit is present, the decoder as written and the corrected one agree |
| Utils.ParsePriceFormatExample | src/utils.hpp:117 | "99-160" decodes to 99.5 |
| Utils.ParsePriceFormat | src/utils.hpp:119-141 | as written: with a third digit it agrees with the corrected decoder; a '+' reads 9/256 low and a missing third character 48/256 low |
| Utils.DecodeFractionalPrice | src/utils.hpp:116-141 | as intended: with no third character, a '+' or a third digit up to 7, the price lies in the 32nd its two digits name, never below it |
| Utils.PlusSuffixUndershoots | src/utils.hpp:136-140 | as written, "100-08+" decodes to 100.23046875; corrected, to 100.265625 |
| Utils.ShortFractionReadsTerminator | src/utils.hpp:136-140 | as written, "99-16" decodes to 99.3125; corrected, to 99.5 |
| Utils.ParseOrderBook | src/utils.hpp:145-163 | an empty line gives ("", []); otherwise the first token is the ticker, and at most ten following prices are decoded in order by ParsePriceFormat as written |
| Positions.ZeroBooks | positionservice.hpp:29-34 | a fresh position has exactly the three books |
| Positions.Booked | positionservice.hpp:59-66 | an update never adds or removes a book |
| Positions.BooksAfter | positionservice.hpp:29-66 | however many updates, a position has exactly the three books |
| Positions.BooksAreSignedSums | positionservice.hpp:59-66 | each book holds the sum of the quantities booked to it, BUY positive and SELL negative |
| Positions.AggregateIsNetQuantity | positionservice.hpp:52-66 | the aggregate of a position equals the net signed quantity of all its trades |
| Positions.BookedChangesOneBook | positionservice.hpp:59-66 | an update changes its own book by the signed quantity, leaves the others alone, and moves the aggregate by the same amount |
| Positions.BuyThenSellExample | positionservice.hpp:59-66 | BUY 1,000,000 then SELL 400,000 in TRSY1 leaves TRSY1 at 600,000, the other books at 0, and the aggregate at 600,000 |
| Positions.Position.constructor | positionservice.hpp:29-34 | the three books are inserted at 0, and no trade has been booked |
| Positions.Position.GetAggregatePosition | positionservice.hpp:52-57 | the loop returns TRSY1 + TRSY2 + TRSY3, which is the net signed quantity of the position's trades |
| Positions.Position.GetPosition | positionservice.hpp:42-48 | in a consistent position, a book's quantity is the signed sum of the trades booked to it |
| Positions.Position.UpdatePosition | positionservice.hpp:59-66 | the named book moves by the signed quantity, the entry is recorded, and the books still match the history |
| Positions.PositionService.constructor | positionservice.hpp:87-96 | one fresh, all-zero position per ticker of the product table, holding that ticker's bond |
| Positions.PositionService.AddTrade | positionservice.hpp:97-112 | the trade's ticker's position books the trade, every position stays consistent with its history, and the listeners are notified once with that position |
| Positions.PositionService.GetData | positionservice.hpp:113-116 | in a consistent service, the position under a ticker is that ticker's and is itself consistent |
| Positions.BuyThenSellThroughService | positionservice.hpp:97-112 | a fresh service that books BUY 1,000,000 then SELL 400,000 of B02y in TRSY1 applies exactly those two updates to B02y's consistent position |
| Positions.NewPositions | positionservice.hpp:91-95 | the constructor's loop keys one new all-zero position by each ticker |
| Positions.ServiceBooksAreSignedSums | positionservice.hpp:97-112 | in every reachable service state, each book is the signed sum of the trades booked to it and the aggregate is their net |
| Risk.RiskService.constructor | src/riskservice.hpp:81-86 | a new risk service has no stored data and no listeners |
| Risk.RiskService.AddPosition | src/riskservice.hpp:87-92 | one notification with a PV01 of the position's product, 0.02 and its aggregate, which equals the net traded quantity; stored data is not touched |
| Risk.BuyThenSellRisk | src/riskservice.hpp:87-92 | BUY 1,000,000 then SELL 400,000 gives a record of quantity 600,000 and risk 12,000 |
| Risk.BuyThenSellThroughServices | src/riskservice.hpp:87-92 | those two trades booked through the position service and the position handed to the risk service deliver a PV01 of B02y, 0.02 and quantity 600,000: risk 12,000 |
| Risk.RiskService.GetData | src/riskservice.hpp:97-99 | the result is one of the stored records |
| Pricing.PricingService.constructor | pricingservice.hpp:47-51 | a new pricing service has no prices and no listeners |
| Pricing.PricingService.OnMessage | pricingservice.hpp:59-64 | the ticker maps to the new price and other tickers keep theirs; the count grows only for a new ticker; one notification with the price |
| Pricing.PricingService.GetData | pricingservice.hpp:54-57 | while every price is filed under its own ticker, which the constructor and OnMessage keep, the price for a ticker is that ticker's |
| Services.PublishedSpaced | services.hpp:53-62 | forwarded quotes come more than 300 ms after the start and more than 300 ms after each other |
| Services.PublishedFromCalls | services.hpp:53-62 | only calls are forwarded, never more quotes than calls |
| Services.ThrottleExample | services.hpp:53-62 | from start 0, calls at 100, 150 and 350 forward only the one at 350 |
| Services.GUIService.constructor | services.hpp:46-52 | the start time and the last quote time are both the current time |
| Services.GUIService.ProvideData | services.hpp:53-62 | a quote is forwarded, and the last quote time moved, exactly when more than 300 ms have passed since the last forwarded one |
| Services.QuoteFor | services.hpp:73-81 | offer − bid equals the spread; their midpoint is the mid; both legs have size 1,000,000 visible and hidden |
| Services.QuoteDeterminesPrice | services.hpp:73-81 | two prices with the same streamed quote are the same price |
| Services.QuoteBrackets | services.hpp:75-76 | with a non-negative spread, bid ≤ mid ≤ offer |
| Services.BondAlgoStreamingService.constructor | services.hpp:69-72 | a new streaming service has no listeners |
| Services.BondAlgoStreamingService.PublishPrice | services.hpp:73-81 | one notification with the two-sided quote of the price |
| Services.HiddenQuantity | services.hpp:103-115 | 90% of the quantity, truncated toward zero |
| Services.HiddenQuantityOfMillions | services.hpp:115 | a quantity of k million hides k × 900,000 |
| Services.DecimalString | services.hpp:99 | to_string of a counter: decimal digits only, with no leading zero |
| Services.DecimalRoundTrip | services.hpp:99 | reading the digits back gives the counter |
| Services.DecimalStringInjective | services.hpp:99 | distinct counters get distinct order ids |
| Services.AlgoExecutionFor | services.hpp:95-117 | a BID crosses at the best bid for the best offer's size, an OFFER at the best offer for the best bid's size; market CME, type MARKET, not a child, order id = parent id = the counter |
| Services.ConsecutiveExecutionsAlternate | services.hpp:93-99 | consecutive executions take opposite sides and get different ids |
| Services.AlgoExecutionCounter.constructor | services.hpp:131-132 | the shared counter starts at 0 |
| Services.AlgoExecutionCounter.NewAlgoExecution | services.hpp:95-117 | the counter goes up by one before the execution is built from it |
| Services.ToleranceExamples | services.hpp:141-147 | a 1/128 spread crosses and a 0.02 spread does not |
| Services.BondAlgoExecutionService.constructor | services.hpp:135-137 | a new execution service has no listeners and uses the shared counter |
| Services.BondAlgoExecutionService.Execute | services.hpp:139-152 | a book within 1/127 gives exactly one execution, built from the incremented counter; any other book changes nothing |
| Listeners.PositionServiceListener.constructor | src/listeners.hpp:39 | the listener holds the service it was given |
| Listeners.PositionServiceListener.ProcessAdd | src/listeners.hpp:42-45 | the trade is booked by AddTrade: its ticker's position gains the trade's entry, the service stays valid and notifies once with that position |
| Listeners.PositionServiceListener.ProcessRemove | src/listeners.hpp:46 | a remove event changes nothing |
| Listeners.PositionServiceListener.ProcessUpdate | src/listeners.hpp:47 | an update event changes nothing |
| Listeners.HistPositionListener.constructor | src/listeners.hpp:65 | the listener holds the service it was given |
| Listeners.HistPositionListener.ProcessAdd | src/listeners.hpp:68-71 | the position is persisted keyed by its product id |
| Listeners.HistPositionListener.ProcessRemove | src/listeners.hpp:72 | a remove event changes nothing |
| Listeners.HistPositionListener.ProcessUpdate | src/listeners.hpp:73 | an update event changes nothing |
| Listeners.RiskServiceListener.constructor | src/listeners.hpp:90 | the listener holds the service it was given |
| Listeners.RiskServiceListener.ProcessAdd | src/listeners.hpp:93-96 | AddPosition notifies once with a PV01 of 0.02 and the position's net traded quantity |
| Listeners.RiskServiceListener.ProcessRemove | src/listeners.hpp:97 | a remove event changes nothing |
| Listeners.RiskServiceListener.ProcessUpdate | src/listeners.hpp:98 | an update event changes nothing |
| Listeners.HistRiskListener.constructor | src/listeners.hpp:116 | the listener holds the service it was given |
| Listeners.HistRiskListener.ProcessAdd | src/listeners.hpp:119-122 | the PV01 record is persisted keyed by its product id |
| Listeners.HistRiskListener.ProcessRemove | src/listeners.hpp:123 | a remove event changes nothing |
| Listeners.HistRiskListener.ProcessUpdate | src/listeners.hpp:124 | an update event changes nothing |
| Listeners.GUIListener.constructor | src/listeners.hpp:141 | the listener holds the service it was given |
| Listeners.GUIListener.ProcessAdd | src/listeners.hpp:144-147 | ProvideData is called: forwarded to the GUI connector and the last quote time moved exactly when more than 300 ms have passed |
| Listeners.GUIListener.ProcessRemove | src/listeners.hpp:148 | a remove event changes nothing |
| Listeners.GUIListener.ProcessUpdate | src/listeners.hpp:149 | an update event changes nothing |
| Listeners.AlgoStreamingListener.constructor | src/listeners.hpp:166 | the listener holds the service it was given |
| Listeners.AlgoStreamingListener.ProcessAdd | src/listeners.hpp:169-173 | PublishPrice notifies once with the two-sided quote of the price |
| Listeners.AlgoStreamingListener.ProcessRemove | src/listeners.hpp:174 | a remove event changes nothing |
| Listeners.AlgoStreamingListener.ProcessUpdate | src/listeners.hpp:175 | an update event changes nothing |
| Listeners.StreamingListener.constructor | src/listeners.hpp:192 | the listener holds the service it was given |
| Listeners.StreamingListener.ProcessAdd | src/listeners.hpp:195-198 | the stream is handed to the streaming service |
| Listeners.StreamingListener.ProcessRemove | src/listeners.hpp:199 | a remove event changes nothing |
| Listeners.StreamingListener.ProcessUpdate | src/listeners.hpp:200 | an update event changes nothing |
| Listeners.HistStreamingListener.constructor | src/listeners.hpp:218 | the listener holds the service it was given |
| Listeners.HistStreamingListener.ProcessAdd | src/listeners.hpp:221-224 | the stream is persisted keyed by its product id |
| Listeners.HistStreamingListener.ProcessRemove | src/listeners.hpp:225 | a remove event changes nothing |
| Listeners.HistStreamingListener.ProcessUpdate | src/listeners.hpp:226 | an update event changes nothing |
| Listeners.BondAlgoExecutionListener.constructor | src/listeners.hpp:243 | the listener holds the service it was given |
| Listeners.BondAlgoExecutionListener.ProcessAdd | src/listeners.hpp:246-249 | Execute runs on the book: one execution, numbered by the next counter value, when the book crosses, nothing otherwise |
| Listeners.BondAlgoExecutionListener.ProcessRemove | src/listeners.hpp:250 | a remove event changes nothing |
| Listeners.BondAlgoExecutionListener.ProcessUpdate | src/listeners.hpp:251 | an update event changes nothing |
| Listeners.ExecutionServiceListener.constructor | src/listeners.hpp:269 | the listener holds the service it was given |
| Listeners.ExecutionServiceListener.ProcessAdd | src/listeners.hpp:272-276 | the order is handed to the execution service with market CME |
| Listeners.ExecutionServiceListener.ProcessRemove | src/listeners.hpp:277 | a remove event changes nothing |
| Listeners.ExecutionServiceListener.ProcessUpdate | src/listeners.hpp:278 | an update event changes nothing |
| Listeners.TradeBookingServiceListener.constructor | src/listeners.hpp:296 | the listener holds the service it was given |
| Listeners.TradeBookingServiceListener.ProcessAdd | src/listeners.hpp:299 | nothing reaches the trade-booking service |
| Listeners.TradeBookingServiceListener.ProcessRemove | src/listeners.hpp:300 | a remove event changes nothing |
| Listeners.TradeBookingServiceListener.ProcessUpdate | src/listeners.hpp:301 | an update event changes nothing |
| Listeners.ExecutionHistoricalDataServiceListener.constructor | src/listeners.hpp:319 | the listener holds the service it was given |
| Listeners.ExecutionHistoricalDataServiceListener.ProcessAdd | src/listeners.hpp:322-325 | the order is persisted keyed by its product id |
| Listeners.ExecutionHistoricalDataServiceListener.ProcessRemove | src/listeners.hpp:326 | a remove event changes nothing |
| Listeners.ExecutionHistoricalDataServiceListener.ProcessUpdate | src/listeners.hpp:327 | an update event changes nothing |
| Listeners.AllInquiryHistoricalDataServiceListener.constructor | src/listeners.hpp:345 | the listener holds the service it was given |
| Listeners.AllInquiryHistoricalDataServiceListener.ProcessAdd | src/listeners.hpp:348-351 | the inquiry is persisted keyed by its inquiry id, not its product id |
| Listeners.AllInquiryHistoricalDataServiceListener.ProcessRemove | src/listeners.hpp:352 | a remove event changes nothing |
| Listeners.AllInquiryHistoricalDataServiceListener.ProcessUpdate | src/listeners.hpp:353 | an update event changes nothing |
| Connectors.SideName | src/connectors.hpp:532 | a side is written "BUY" exactly when it is BUY |
| Connectors.SideFromName | src/connectors.hpp:494 | a side is read as BUY exactly when the token is "BUY" |
| Connectors.SideNameRoundTrip | src/connectors.hpp:494 | reading a written side gives the side back |
| Connectors.ExecutionSideName | src/connectors.hpp:427 | an execution's side is written "BUY" for BID and "SELL" otherwise |
| Connectors.StateNameRoundTrip | src/connectors.hpp:533-538 | each state is written under its own literal name, which reads back as that state, so no two states share a name |
| Connectors.StateName | src/connectors.hpp:533-538 | a state is written as a non-empty name without a comma, so it stays one column of the line |
| Connectors.StateFromName | src/connectors.hpp:533-538 | reading a name gives a state exactly when that state is written under that name |
| Connectors.DecodeTrade | src/connectors.hpp:69-74 | lines of fewer than six tokens are skipped; otherwise the fields come from the tokens in the source's order, and the side is BUY exactly when the sixth token is "BUY" |
| Connectors.TradeLineRoundTrip | src/connectors.hpp:69-74 | a trade of a listed bond written as a comma-free line decodes back to the same trade |
| Connectors.DecodePrice | src/connectors.hpp:221-237 | short lines and unknown tickers are skipped; otherwise mid = (bid + ask)/2 and spread = ask − bid |
| Connectors.DecodedPriceQuotesBack | src/connectors.hpp:230-234 | the quote streamed for a decoded price gives back the line's bid and ask exactly |
| Connectors.LevelSizesIncrease | src/connectors.hpp:383 | deeper levels carry larger sizes |
| Connectors.BuildOrderBook | src/connectors.hpp:378-390 | five levels a side: level i bids px[2i] and offers px[2i+1], both of size 1,000,000·(i+1); the book crosses exactly when px[1] − px[0] ≤ 1/127 |
| Connectors.EmptyTickerUnlisted | src/connectors.hpp:375 | an empty line's ticker is never in the product map |
| Connectors.DecodeOrderBook | src/connectors.hpp:371-390 | lines whose ticker is not listed are skipped; otherwise level i holds the decoded tokens 2i+1 and 2i+2 |
| Connectors.PlusBidCrossesAsWritten | src/connectors.hpp:371-390 | as written, a best bid "99-16+" and best offer "99-17" give a negative spread, so the book crosses; read as intended the spread is 1/64, above the 1/127 tolerance |
| Connectors.DecodeInquiry | src/connectors.hpp:489-495 | lines of fewer than three tokens are skipped; otherwise the inquiry is RECEIVED for 1,000,000 at −1, and its side is BUY exactly when the third token is "BUY" |
| Connectors.InquiryReplies | src/connectors.hpp:457-468 | a RECEIVED inquiry is answered by a QUOTED copy and then a DONE copy that differ from it only in state; any other inquiry gets nothing |
| Connectors.RepliesAreFinal | src/connectors.hpp:459 | no reply is RECEIVED, so publishing a reply again sends nothing |
| Connectors.DecodedInquiryIsAnswered | src/connectors.hpp:457-495 | every decoded inquiry, once published, is answered QUOTED then DONE |
| Connectors.InquiryConnector.constructor | src/connectors.hpp:454-455 | the connector holds the inquiry service it was given |
| Connectors.InquiryConnector.Publish | src/connectors.hpp:457-468 | the service receives exactly the replies: QUOTED then DONE for RECEIVED, nothing otherwise |
| Connectors.InquiryConnector.OnMessage | src/connectors.hpp:470-473 | an inbound inquiry reaches the service unchanged |
| Connectors.PositionRecordOf | src/connectors.hpp:115-125 | each book column is the signed sum of the trades booked there, and the aggregate column is their sum, the net of all trades |
| Connectors.RiskRecordOfPosition | src/connectors.hpp:159-162 | a position's risk line shows 0.02 times its net traded quantity |
| Connectors.RiskRecordOf | src/connectors.hpp:152-163 | the risk line carries the ticker and the risk the PV01 record stands for |
| Connectors.GUIRecordOf | src/connectors.hpp:266-277 | the GUI line's spread and mid are the offer − bid and the midpoint of the quote streamed for the same price |
| Connectors.StreamRecordOf | src/connectors.hpp:302-312 | for a stream quoted from a price, the line's offer − bid is that price's spread and its midpoint that price's mid |
| Connectors.StreamAndGUIRecordsAgree | src/connectors.hpp:273-311 | for one price, the streaming line's offer − bid is the GUI line's spread and its midpoint the GUI mid |
| Connectors.ExecutionRecordOf | src/connectors.hpp:427-435 | the order-type column is always "MarketOrder", and the side column is "BUY" exactly for BID |
| Connectors.ExecutionTagsDistinct | src/connectors.hpp:430 | executions built from different counters are written with different "TID_" tags |
| Connectors.InquiryRecordReadsBack | src/connectors.hpp:532-545 | the side and state columns of an inquiry line read back as its side and state |
| Connectors.InquiryRecordOf | src/connectors.hpp:532-545 | the side and state columns read back as the inquiry's side and state |

## Left out

- File I/O in the connectors is not modelled: opening, truncating and appending to files, the `getline` loops, progress logging and error messages. Each record's decoding and field computation is modelled instead.
- Timestamps read with `system_clock` are not modelled. The GUI service takes the current time as `now`, and each outbound record carries a `time` field passed in.
- The text formatting of numbers in outbound records (`operator<<` on `double` and `long`) is not modelled. Records hold the values, not their printed digits.
- `std::stol` and `std::stod` are parameters. Their exceptions on malformed input are not modelled.
- Floating point is not modelled. Prices, mids, spreads and PV01 values are exact reals. `Services.HiddenQuantity` is the exact truncation of 9q/10, whereas the source truncates the double q × 0.9.
- Integer width is not modelled. `long` quantities and positions are unbounded.
- `Services.AlgoExecutionCounter`: the source's `static int counter` overflows (undefined behaviour) past 2^31 − 1; the model's counter is unbounded. The static counter is modelled as one object shared by the execution service.
- Object lifetimes are not modelled:
  - the heap-allocated `ExecutionOrder` owned by each `AlgoExecution`;
  - its double delete when the object is copied;
  - `Price` keeping its product by reference.
- Dispatch from `Notify` into listener objects is recorded, not executed. A service records which listener receives which callback in its `trace`, and each listener class's `ProcessAdd` states what that callback does.
- Wiring several listeners into one pipeline (the program's `main`) is not part of this model.
- src/historicaldataservice.hpp, src/main.cpp and data_generator.cpp are not part of this model. The generator's price notation is used only to state which strings the decoder meets.
- Services whose headers are not part of this model (streaming, execution, inquiry, trade booking, market data, historical data) are not modelled. Each is a `Soa.Sink` that records what it is handed.
- `RiskService::GetBucketedRisk` has no return statement, so it has no behaviour to model.
- Connectors whose record logic is a pass-through are covered by `Soa.Connector.Publish` and the listener models: the trade-booking, pricing and market-data `Publish`/`OnMessage` no-ops, and the trade-booking connector's forwarding `OnMessage`.
- Undefined behaviour in the source becomes a precondition:
  - `Positions.PositionService.AddTrade` requires a listed ticker and one of the three books; the source dereferences `end()` otherwise.
  - `Positions.Position.GetPosition`, `Positions.PositionService.GetData`, `Risk.RiskService.GetData` and `Pricing.PricingService.GetData` require the key to be present.
  - The price decoders require the two digits after the dash.
  - `Connectors.DecodeOrderBook` requires ten prices on a line with a listed ticker.
  - Execution requires non-empty stacks.
- `Positions.Booked` is total: for a book that does not exist it leaves the map unchanged. The source dereferences `end()` there, but callers always pass one of the three books.
- `Connectors.DecodePrice` and `Connectors.DecodeOrderBook` use the corrected price decoder, not the source's `ParsePriceFormat`. The two agree except on the inputs listed under Findings. `Utils.ParseOrderBook` keeps `ParsePriceFormat`, as the source writes it; `Connectors.DecodeOrderBook` splits the line as it does and reads the prices with the corrected decoder.
- The historical-data sinks record a reference to the live `Position` object, so later trades change what a sink holds; the source writes the position's values out at the time of the call.
- Strings are sequences of Unicode characters, not bytes. Every input the core reads is ASCII, where the two agree.

## Findings

| source | as written | input that shows it | evidently intended | confidence | as-written member | corrected member |
|---|---|---|---|---|---|---|
| src/utils.hpp:136-140 | the third fraction character is always read as `c - '0'`, so the half-32nd marker '+' counts as −5/256 | "100-08+", a shape the price and market-data generators emit (data_generator.cpp:208-219, 276-287), decodes to 100.23046875 | '+' adds 1/64: 100.265625 | high; not executed | Utils.PlusSuffixUndershoots | Utils.FractionalRoundTrip |
| src/utils.hpp:136-140 | a price with only two fraction digits makes the decoder read the terminating NUL as a digit, −48/256 | "99-16", a shape the price and market-data generators emit (data_generator.cpp:208-219, 276-287), decodes to 99.3125 | a missing third digit adds nothing: 99.5 | high; not executed | Utils.ShortFractionReadsTerminator | Utils.FractionalRoundTrip |
