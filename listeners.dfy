/**
 * The listeners that wire the services together: each one holds the service it
 * forwards to and decides which of that service's methods an add event reaches.
 * Every ProcessRemove and ProcessUpdate is a no-op: none has a modifies clause.
 * Services outside this model (historical data, streaming, execution, trade
 * booking) are Sinks that record what they are handed.
 */
module Listeners {
  import opened Types
  import opened Soa
  import Positions
  import Risk
  import Pricing
  import Services
  import Utils

  /** Trades reach PositionService::AddTrade. */
  class PositionServiceListener {
    const positionService: Positions.PositionService

    constructor (service: Positions.PositionService)
      ensures positionService == service
    {
      positionService := service;
    }

    /** Calls AddTrade once with the trade (whose ticker and book must be known). */
    method ProcessAdd(data: Trade)
      requires positionService.Valid()
      requires data.product.ticker in positionService.byTicker && data.book in Positions.BookSet()
      modifies positionService.bus, positionService.byTicker[data.product.ticker]
      ensures positionService.Valid()
      ensures var p := positionService.byTicker[data.product.ticker];
                p.entries == old(p.entries) + [Positions.EntryOf(data)]
      ensures positionService.bus.listeners == old(positionService.bus.listeners)
      ensures positionService.bus.trace == old(positionService.bus.trace)
                + Deliveries(positionService.bus.listeners, positionService.byTicker[data.product.ticker])
    {
      positionService.AddTrade(data);
    }

    method ProcessRemove(data: Trade)
      ensures unchanged(positionService)
    {
    }

    method ProcessUpdate(data: Trade)
      ensures unchanged(positionService)
    {
    }
  }

  /** Positions are persisted keyed by product id. */
  class HistPositionListener {
    const histService: Sink<(string, Positions.Position)>

    constructor (service: Sink<(string, Positions.Position)>)
      ensures histService == service
    {
      histService := service;
    }

    method ProcessAdd(data: Positions.Position)
      modifies histService
      ensures histService.received == old(histService.received) + [(data.product.productId, data)]
    {
      histService.Receive((data.product.productId, data));
    }

    method ProcessRemove(data: Positions.Position)
      ensures unchanged(histService)
    {
    }

    method ProcessUpdate(data: Positions.Position)
      ensures unchanged(histService)
    {
    }
  }

  /** Positions reach RiskService::AddPosition. */
  class RiskServiceListener {
    const riskService: Risk.RiskService

    constructor (service: Risk.RiskService)
      ensures riskService == service
    {
      riskService := service;
    }

    method ProcessAdd(data: Positions.Position)
      requires data.Valid()
      modifies riskService.bus
      ensures riskService.bus.listeners == old(riskService.bus.listeners)
      ensures riskService.bus.trace == old(riskService.bus.trace)
                + Deliveries(riskService.bus.listeners,
                             Risk.PV01(data.product, Risk.FixedPV01, Positions.NetQuantity(data.entries)))
    {
      riskService.AddPosition(data);
    }

    method ProcessRemove(data: Positions.Position)
      ensures unchanged(riskService)
    {
    }

    method ProcessUpdate(data: Positions.Position)
      ensures unchanged(riskService)
    {
    }
  }

  /** PV01 records are persisted keyed by product id. */
  class HistRiskListener {
    const histService: Sink<(string, Risk.PV01)>

    constructor (service: Sink<(string, Risk.PV01)>)
      ensures histService == service
    {
      histService := service;
    }

    method ProcessAdd(data: Risk.PV01)
      modifies histService
      ensures histService.received == old(histService.received) + [(data.product.productId, data)]
    {
      histService.Receive((data.product.productId, data));
    }

    method ProcessRemove(data: Risk.PV01)
      ensures unchanged(histService)
    {
    }

    method ProcessUpdate(data: Risk.PV01)
      ensures unchanged(histService)
    {
    }
  }

  /** Prices reach GUIService::ProvideData; `now` is the clock reading at the call. */
  class GUIListener {
    const guiService: Services.GUIService

    constructor (service: Services.GUIService)
      ensures guiService == service
    {
      guiService := service;
    }

    method ProcessAdd(data: Pricing.Price, now: int)
      requires guiService.Valid()
      modifies guiService, guiService.guiConnector
      ensures guiService.Valid() && guiService.calls == old(guiService.calls) + [now]
      ensures guiService.serviceStartTime == old(guiService.serviceStartTime)
      ensures guiService.lastQuoteTime
                == if Services.Forwards(old(guiService.lastQuoteTime), now) then now else old(guiService.lastQuoteTime)
      ensures Services.Forwards(old(guiService.lastQuoteTime), now) ==>
                guiService.guiConnector.received == old(guiService.guiConnector.received) + [data]
      ensures !Services.Forwards(old(guiService.lastQuoteTime), now) ==>
                guiService.guiConnector.received == old(guiService.guiConnector.received)
    {
      guiService.ProvideData(data, now);
    }

    method ProcessRemove(data: Pricing.Price)
      ensures unchanged(guiService)
    {
    }

    method ProcessUpdate(data: Pricing.Price)
      ensures unchanged(guiService)
    {
    }
  }

  /** Prices reach BondAlgoStreamingService::PublishPrice. */
  class AlgoStreamingListener {
    const algoStreamingService: Services.BondAlgoStreamingService

    constructor (service: Services.BondAlgoStreamingService)
      ensures algoStreamingService == service
    {
      algoStreamingService := service;
    }

    method ProcessAdd(data: Pricing.Price)
      modifies algoStreamingService.bus
      ensures algoStreamingService.bus.listeners == old(algoStreamingService.bus.listeners)
      ensures algoStreamingService.bus.trace == old(algoStreamingService.bus.trace)
                + Deliveries(algoStreamingService.bus.listeners, Services.QuoteFor(data))
    {
      algoStreamingService.PublishPrice(data);
    }

    method ProcessRemove(data: Pricing.Price)
      ensures unchanged(algoStreamingService)
    {
    }

    method ProcessUpdate(data: Pricing.Price)
      ensures unchanged(algoStreamingService)
    {
    }
  }

  /** Price streams reach StreamingService::PublishPrice. */
  class StreamingListener {
    const streamingService: Sink<PriceStream>

    constructor (service: Sink<PriceStream>)
      ensures streamingService == service
    {
      streamingService := service;
    }

    method ProcessAdd(data: PriceStream)
      modifies streamingService
      ensures streamingService.received == old(streamingService.received) + [data]
    {
      streamingService.Receive(data);
    }

    method ProcessRemove(data: PriceStream)
      ensures unchanged(streamingService)
    {
    }

    method ProcessUpdate(data: PriceStream)
      ensures unchanged(streamingService)
    {
    }
  }

  /** Price streams are persisted keyed by product id. */
  class HistStreamingListener {
    const histService: Sink<(string, PriceStream)>

    constructor (service: Sink<(string, PriceStream)>)
      ensures histService == service
    {
      histService := service;
    }

    method ProcessAdd(data: PriceStream)
      modifies histService
      ensures histService.received == old(histService.received) + [(data.product.productId, data)]
    {
      histService.Receive((data.product.productId, data));
    }

    method ProcessRemove(data: PriceStream)
      ensures unchanged(histService)
    {
    }

    method ProcessUpdate(data: PriceStream)
      ensures unchanged(histService)
    {
    }
  }

  /** Order books reach BondAlgoExecutionService::Execute. */
  class BondAlgoExecutionListener {
    const algoExecService: Services.BondAlgoExecutionService

    constructor (service: Services.BondAlgoExecutionService)
      ensures algoExecService == service
    {
      algoExecService := service;
    }

    /** Both stacks must be non-empty: Execute reads their first levels unchecked. */
    method ProcessAdd(data: OrderBook)
      requires |data.bidStack| > 0 && |data.offerStack| > 0
      modifies algoExecService.bus, algoExecService.executions
      ensures algoExecService.bus.listeners == old(algoExecService.bus.listeners)
      ensures Services.Crosses(data) ==>
                algoExecService.executions.counter == old(algoExecService.executions.counter) + 1
                && algoExecService.bus.trace == old(algoExecService.bus.trace)
                   + Deliveries(algoExecService.bus.listeners,
                                Services.AlgoExecutionFor(data, algoExecService.executions.counter))
      ensures !Services.Crosses(data) ==>
                algoExecService.executions.counter == old(algoExecService.executions.counter)
                && algoExecService.bus.trace == old(algoExecService.bus.trace)
    {
      algoExecService.Execute(data);
    }

    method ProcessRemove(data: OrderBook)
      ensures unchanged(algoExecService)
    {
    }

    method ProcessUpdate(data: OrderBook)
      ensures unchanged(algoExecService)
    {
    }
  }

  /** Execution orders reach ExecutionService::ExecuteOrder, always with market CME. */
  class ExecutionServiceListener {
    const execService: Sink<(ExecutionOrder, Market)>

    constructor (service: Sink<(ExecutionOrder, Market)>)
      ensures execService == service
    {
      execService := service;
    }

    method ProcessAdd(data: ExecutionOrder)
      modifies execService
      ensures execService.received == old(execService.received) + [(data, CME)]
    {
      execService.Receive((data, CME));
    }

    method ProcessRemove(data: ExecutionOrder)
      ensures unchanged(execService)
    {
    }

    method ProcessUpdate(data: ExecutionOrder)
      ensures unchanged(execService)
    {
    }
  }

  /** Holds the trade-booking service but never calls it: no trade is booked from an execution order. */
  class TradeBookingServiceListener {
    const tradeBookingService: Sink<Trade>

    constructor (service: Sink<Trade>)
      ensures tradeBookingService == service
    {
      tradeBookingService := service;
    }

    method ProcessAdd(data: ExecutionOrder)
      ensures unchanged(tradeBookingService)
    {
    }

    method ProcessRemove(data: ExecutionOrder)
      ensures unchanged(tradeBookingService)
    {
    }

    method ProcessUpdate(data: ExecutionOrder)
      ensures unchanged(tradeBookingService)
    {
    }
  }

  /** Execution orders are persisted keyed by product id. */
  class ExecutionHistoricalDataServiceListener {
    const histService: Sink<(string, ExecutionOrder)>

    constructor (service: Sink<(string, ExecutionOrder)>)
      ensures histService == service
    {
      histService := service;
    }

    method ProcessAdd(data: ExecutionOrder)
      modifies histService
      ensures histService.received == old(histService.received) + [(data.product.productId, data)]
    {
      histService.Receive((data.product.productId, data));
    }

    method ProcessRemove(data: ExecutionOrder)
      ensures unchanged(histService)
    {
    }

    method ProcessUpdate(data: ExecutionOrder)
      ensures unchanged(histService)
    {
    }
  }

  /** Inquiries are persisted keyed by inquiry id, not product id. */
  class AllInquiryHistoricalDataServiceListener {
    const histService: Sink<(string, Inquiry)>

    constructor (service: Sink<(string, Inquiry)>)
      ensures histService == service
    {
      histService := service;
    }

    method ProcessAdd(data: Inquiry)
      modifies histService
      ensures histService.received == old(histService.received) + [(data.inquiryId, data)]
    {
      histService.Receive((data.inquiryId, data));
    }

    method ProcessRemove(data: Inquiry)
      ensures unchanged(histService)
    {
    }

    method ProcessUpdate(data: Inquiry)
      ensures unchanged(histService)
    {
    }
  }
}
