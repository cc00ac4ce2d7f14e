/**
 * Minimal value types for the entities the core exchanges whose own headers
 * (products, trade booking, market data, execution, streaming, inquiry) are
 * not part of this model: only the fields the core reads or writes.
 */
module Types {

  datatype Option<+T> = None | Some(value: T)

  datatype Date = Date(year: int, month: int, day: int)

  datatype BondIdType = CUSIP | ISIN

  datatype Bond = Bond(productId: string, bondIdType: BondIdType, ticker: string,
                       coupon: real, maturityDate: Date)

  /** Side of a trade or an inquiry. */
  datatype Side = BUY | SELL

  datatype Trade = Trade(product: Bond, tradeId: string, price: real, book: string,
                         quantity: int, side: Side)

  /** Side of a quote or an order-book level; BID is 0 and OFFER is 1. */
  datatype PricingSide = BID | OFFER

  datatype Order = Order(price: real, quantity: int, side: PricingSide)

  /** An order book: best price first on each stack. */
  datatype OrderBook = OrderBook(product: Bond, bidStack: seq<Order>, offerStack: seq<Order>)

  datatype OrderType = FOK | IOC | MARKET | LIMIT | STOP

  datatype Market = BROKERTEC | ESPEED | CME

  datatype ExecutionOrder = ExecutionOrder(product: Bond, side: PricingSide, orderId: string,
                                           orderType: OrderType, price: real,
                                           visibleQuantity: int, hiddenQuantity: int,
                                           parentOrderId: string, isChildOrder: bool)

  datatype PriceStreamOrder = PriceStreamOrder(price: real, visibleQuantity: int,
                                               hiddenQuantity: int, side: PricingSide)

  datatype PriceStream = PriceStream(product: Bond, bidOrder: PriceStreamOrder,
                                     offerOrder: PriceStreamOrder)

  datatype InquiryState = RECEIVED | QUOTED | DONE | REJECTED

  datatype Inquiry = Inquiry(inquiryId: string, product: Bond, side: Side, quantity: int,
                             price: real, state: InquiryState)
}
