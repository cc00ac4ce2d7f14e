/**
 * Risk: a position becomes a PV01 record carrying the fixed PV01 of 0.02 and
 * the position's aggregate quantity, which is handed to the listeners.
 */
module Risk {
  import opened Types
  import opened Soa
  import Positions
  import Utils

  /** The PV01 every record carries. */
  const FixedPV01: real := 0.02

  /** A PV01 risk value: the getters are the destructors. */
  datatype PV01 = PV01(product: Bond, pv01: real, quantity: int)

  /** A named group of products to bucket risk over: the getters are the destructors. */
  datatype BucketedSector = BucketedSector(products: seq<Bond>, name: string)

  /** The risk a PV01 record stands for: pv01 times quantity. */
  function RiskOf(r: PV01): real
  {
    r.pv01 * r.quantity as real
  }

  /**
   * The risk service. `data` is never written by AddPosition (the source
   * declares it and reads it in GetData only).
   */
  class RiskService {
    var data: map<string, PV01>
    const bus: Service<PV01>

    constructor ()
      ensures data == map[] && fresh(bus) && bus.listeners == [] && bus.trace == []
    {
      data := map[];
      bus := new Service<PV01>();
    }

    /**
     * Computes the position's aggregate and notifies once with a PV01 of the
     * position's product, 0.02 and that aggregate. The position's three books
     * must exist: GetAggregatePosition dereferences find() unchecked.
     */
    method AddPosition(position: Positions.Position)
      requires position.Valid()
      modifies bus
      ensures data == old(data)
      ensures bus.listeners == old(bus.listeners)
      ensures bus.trace == old(bus.trace)
                + Deliveries(bus.listeners, PV01(position.product, FixedPV01, Positions.AggregateOf(position.positions)))
      ensures Positions.AggregateOf(position.positions) == Positions.NetQuantity(position.entries)
    {
      var aggregate := position.GetAggregatePosition();
      var current := PV01(position.product, FixedPV01, aggregate);
      bus.Notify(current);
    }

    /** The stored record for a key; the key must be present (find() is dereferenced unchecked). */
    function GetData(key: string): (r: PV01)
      reads this
      requires key in data
      ensures r in data.Values
    {
      data[key]
    }
  }

  /**
   * BUY 1,000,000 then SELL 400,000 in TRSY1: the position's record carries
   * quantity 600,000, a risk of 0.02 x 600,000 = 12,000.
   */
  lemma BuyThenSellRisk(product: Bond)
    ensures var entries := [Positions.Entry("TRSY1", 1000000, BUY), Positions.Entry("TRSY1", 400000, SELL)];
      var r := PV01(product, FixedPV01, Positions.AggregateOf(Positions.BooksAfter(entries)));
      r.quantity == 600000 && RiskOf(r) == 12000.0
  {
    Positions.BuyThenSellExample();
  }

  /**
   * The same trades through the services: a position service books BUY
   * 1,000,000 then SELL 400,000 of B02y in TRSY1, the position is handed to a
   * risk service, and its one listener receives a PV01 of quantity 600,000,
   * a risk of 12,000.
   */
  method BuyThenSellThroughServices() returns (delivered: PV01)
    ensures delivered.product == Utils.LookupBond("B02y") && delivered.pv01 == FixedPV01
    ensures delivered.quantity == 600000 && RiskOf(delivered) == 12000.0
  {
    var p := Positions.BuyThenSellThroughService();
    Positions.BuyThenSellExample();
    var risk := new RiskService();
    risk.bus.AddListener(7);
    risk.AddPosition(p);
    delivered := risk.bus.trace[0].data;
  }
}
