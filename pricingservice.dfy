/**
 * Pricing store: the latest price per ticker, replaced on every message and
 * then handed to the listeners.
 */
module Pricing {
  import opened Types
  import opened Soa

  /** A mid price and a bid/offer spread for a product: the getters are the destructors. */
  datatype Price = Price(product: Bond, mid: real, bidOfferSpread: real)

  class PricingService {
    var prices: map<string, Price>
    const bus: Service<Price>

    /** Each stored price is filed under its own product's ticker. */
    ghost predicate Keyed()
      reads this
    {
      forall t :: t in prices ==> prices[t].product.ticker == t
    }

    constructor ()
      ensures Keyed()
      ensures prices == map[] && fresh(bus) && bus.listeners == [] && bus.trace == []
    {
      prices := map[];
      bus := new Service<Price>();
    }

    /** The stored price for a ticker; the ticker must be present (find() is dereferenced unchecked). */
    function GetData(key: string): (p: Price)
      reads this
      requires key in prices
      ensures Keyed() ==> p.product.ticker == key
    {
      prices[key]
    }

    /**
     * Erases any price for the message's ticker, inserts the message, then
     * notifies the listeners once with it.
     */
    method OnMessage(data: Price)
      modifies this, bus
      ensures old(Keyed()) ==> Keyed()
      ensures data.product.ticker in prices && prices[data.product.ticker] == data
      ensures prices.Keys == old(prices).Keys + {data.product.ticker}
      ensures forall t :: t in old(prices) && t != data.product.ticker ==> prices[t] == old(prices)[t]
      ensures |prices| == if data.product.ticker in old(prices) then |old(prices)| else |old(prices)| + 1
      ensures bus.listeners == old(bus.listeners)
      ensures bus.trace == old(bus.trace) + Deliveries(bus.listeners, data)
    {
      var ticker := data.product.ticker;
      prices := prices - {ticker};
      prices := prices[ticker := data];
      bus.Notify(data);
    }
  }
}
