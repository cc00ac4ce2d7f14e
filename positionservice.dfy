/**
 * Position keeping: one Position per product, each holding three fixed books
 * (TRSY1, TRSY2, TRSY3). A trade adds its quantity to its book when it is a
 * BUY and subtracts it otherwise; the aggregate is the sum of the three books.
 */
module Positions {
  import opened Types
  import opened Soa
  import Utils

  /** The books every position is created with, in the order the source lists them. */
  const BookNames: seq<string> := ["TRSY1", "TRSY2", "TRSY3"]

  function BookSet(): set<string>
  {
    {"TRSY1", "TRSY2", "TRSY3"}
  }

  function ZeroBooks(): (m: map<string, int>)
    ensures m.Keys == BookSet()
  {
    map["TRSY1" := 0, "TRSY2" := 0, "TRSY3" := 0]
  }

  /** The signed effect of a trade on its book: + for BUY, - otherwise. */
  function Signed(quantity: int, side: Side): int
  {
    if side == BUY then quantity else -quantity
  }

  /**
   * The book map after one UpdatePosition(book, quantity, side). UpdatePosition
   * requires the book to exist (the source would dereference end() otherwise);
   * this function leaves the map as it is for a missing book so that it is total.
   */
  function Booked(books: map<string, int>, book: string, quantity: int, side: Side): (r: map<string, int>)
    ensures r.Keys == books.Keys
  {
    if book in books then books[book := books[book] + Signed(quantity, side)] else books
  }

  /** The aggregate position: the sum of the three books. */
  function AggregateOf(books: map<string, int>): int
    requires BookSet() <= books.Keys
  {
    books["TRSY1"] + books["TRSY2"] + books["TRSY3"]
  }

  /** Sum of the named books, the last name added last. */
  function SumBooks(books: map<string, int>, names: seq<string>): int
    requires forall i :: 0 <= i < |names| ==> names[i] in books
  {
    if names == [] then 0 else SumBooks(books, names[..|names| - 1]) + books[names[|names| - 1]]
  }

  // ---------------------------------------------------------------------------
  // Positions as a function of the updates applied
  // ---------------------------------------------------------------------------

  /** One UpdatePosition call: which book, how much, which side. */
  datatype Entry = Entry(book: string, quantity: int, side: Side)

  /** What AddTrade applies to the trade's position. */
  function EntryOf(trade: Trade): Entry
  {
    Entry(trade.book, trade.quantity, trade.side)
  }

  /** Every entry names one of the three books. */
  predicate Bookable(entries: seq<Entry>)
  {
    forall i :: 0 <= i < |entries| ==> entries[i].book in BookSet()
  }

  lemma BookablePrefix(entries: seq<Entry>)
    requires entries != [] && Bookable(entries)
    ensures Bookable(entries[..|entries| - 1])
  {
    var init := entries[..|entries| - 1];
    forall i | 0 <= i < |init| ensures init[i].book in BookSet() {
      assert init[i] == entries[i];
    }
  }

  /** The books of a fresh position after the entries, in order. */
  function BooksAfter(entries: seq<Entry>): (m: map<string, int>)
    ensures m.Keys == BookSet()
  {
    if entries == [] then ZeroBooks()
    else
      var e := entries[|entries| - 1];
      Booked(BooksAfter(entries[..|entries| - 1]), e.book, e.quantity, e.side)
  }

  /** The signed quantities of the entries for `book`, summed. */
  function SignedSum(entries: seq<Entry>, book: string): int
  {
    if entries == [] then 0
    else
      var e := entries[|entries| - 1];
      SignedSum(entries[..|entries| - 1], book) + (if e.book == book then Signed(e.quantity, e.side) else 0)
  }

  /** The signed quantities of all the entries, summed. */
  function NetQuantity(entries: seq<Entry>): int
  {
    if entries == [] then 0
    else
      var e := entries[|entries| - 1];
      NetQuantity(entries[..|entries| - 1]) + Signed(e.quantity, e.side)
  }

  /** Each book holds the signed sum of the quantities booked to it. */
  lemma {:induction false} BooksAreSignedSums(entries: seq<Entry>)
    ensures forall b :: b in BookSet() ==> BooksAfter(entries)[b] == SignedSum(entries, b)
  {
    if entries != [] {
      BooksAreSignedSums(entries[..|entries| - 1]);
    }
  }

  /** The aggregate position is the net signed quantity of all the entries. */
  lemma {:induction false} AggregateIsNetQuantity(entries: seq<Entry>)
    requires Bookable(entries)
    ensures AggregateOf(BooksAfter(entries)) == NetQuantity(entries)
  {
    if entries != [] {
      BookablePrefix(entries);
      AggregateIsNetQuantity(entries[..|entries| - 1]);
    }
  }

  /** A trade changes only its own book, and the aggregate by its signed quantity. */
  lemma BookedChangesOneBook(books: map<string, int>, book: string, quantity: int, side: Side)
    requires BookSet() <= books.Keys && book in BookSet()
    ensures Booked(books, book, quantity, side).Keys == books.Keys
    ensures Booked(books, book, quantity, side)[book] == books[book] + Signed(quantity, side)
    ensures forall b :: b in books && b != book ==> Booked(books, book, quantity, side)[b] == books[b]
    ensures AggregateOf(Booked(books, book, quantity, side)) == AggregateOf(books) + Signed(quantity, side)
  {
  }

  /** BUY 1,000,000 then SELL 400,000 in TRSY1 leaves 600,000 in TRSY1 and in aggregate. */
  lemma BuyThenSellExample()
    ensures var entries := [Entry("TRSY1", 1000000, BUY), Entry("TRSY1", 400000, SELL)];
      BooksAfter(entries) == map["TRSY1" := 600000, "TRSY2" := 0, "TRSY3" := 0]
      && AggregateOf(BooksAfter(entries)) == 600000
  {
    var entries := [Entry("TRSY1", 1000000, BUY), Entry("TRSY1", 400000, SELL)];
    assert entries[..1] == [entries[0]];
    assert [entries[0]][..0] == [];
    assert BooksAfter([entries[0]]) == map["TRSY1" := 1000000, "TRSY2" := 0, "TRSY3" := 0];
  }

  // ---------------------------------------------------------------------------
  // Position
  // ---------------------------------------------------------------------------

  /**
   * A position in one product across the three books. `entries` records the
   * updates applied since construction; the books are what they give.
   */
  class Position {
    const product: Bond
    var positions: map<string, int>
    ghost var entries: seq<Entry>

    ghost predicate Valid()
      reads this
    {
      positions == BooksAfter(entries) && Bookable(entries)
    }

    /** Inserts each of the three books at quantity 0. */
    constructor (product: Bond)
      ensures Valid() && this.product == product
      ensures positions == ZeroBooks() && entries == []
    {
      var books: map<string, int> := map[];
      for i := 0 to |BookNames|
        invariant forall b :: b in books <==> b in BookNames[..i]
        invariant forall b :: b in books ==> books[b] == 0
      {
        assert BookNames[..i + 1] == BookNames[..i] + [BookNames[i]];
        if BookNames[i] !in books {
          books := books[BookNames[i] := 0];
        }
      }
      assert BookNames[..|BookNames|] == BookNames;
      this.product := product;
      positions := books;
      entries := [];
    }

    /** The quantity in one book; the book must exist (the source dereferences find() unchecked). */
    function GetPosition(book: string): (q: int)
      reads this
      requires book in positions
      ensures Valid() ==> q == SignedSum(entries, book)
    {
      BooksAreSignedSums(entries);
      positions[book]
    }

    /** Sums the three books in turn. */
    method GetAggregatePosition() returns (result: int)
      requires Valid()
      ensures result == AggregateOf(positions)
      ensures result == GetPosition("TRSY1") + GetPosition("TRSY2") + GetPosition("TRSY3")
      ensures result == NetQuantity(entries)
    {
      result := 0;
      for i := 0 to |BookNames|
        invariant result == SumBooks(positions, BookNames[..i])
      {
        assert BookNames[..i + 1][..i] == BookNames[..i];
        result := result + positions[BookNames[i]];
      }
      assert BookNames[..|BookNames|] == BookNames;
      assert BookNames[..2] == ["TRSY1", "TRSY2"];
      assert BookNames[..2][..1] == BookNames[..1] == ["TRSY1"];
      assert ["TRSY1"][..0] == [];
      assert SumBooks(positions, ["TRSY1"]) == positions["TRSY1"];
      assert SumBooks(positions, ["TRSY1", "TRSY2"]) == positions["TRSY1"] + positions["TRSY2"];
      AggregateIsNetQuantity(entries);
    }

    /** Adds the quantity to the book for a BUY and subtracts it otherwise. */
    method UpdatePosition(book: string, quantity: int, side: Side)
      requires Valid() && book in positions
      modifies this
      ensures Valid()
      ensures positions == Booked(old(positions), book, quantity, side)
      ensures entries == old(entries) + [Entry(book, quantity, side)]
    {
      if side == BUY {
        positions := positions[book := positions[book] + quantity];
      } else {
        positions := positions[book := positions[book] - quantity];
      }
      entries := entries + [Entry(book, quantity, side)];
      assert entries[..|entries| - 1] == old(entries);
    }
  }

  // ---------------------------------------------------------------------------
  // PositionService
  // ---------------------------------------------------------------------------

  /** Keeps one Position per ticker, holding that ticker's bond. */
  class PositionService {
    var byTicker: map<string, Position>
    const bus: Service<Position>

    ghost predicate Valid()
      reads this, byTicker.Values
    {
      forall t :: t in byTicker ==> byTicker[t].product.ticker == t && byTicker[t].Valid()
    }

    /** One all-zero position for every ticker of the product table. */
    constructor ()
      ensures Valid()
      ensures byTicker.Keys == set t | t in Utils.Tickers()
      ensures forall t :: t in byTicker ==>
                fresh(byTicker[t]) && byTicker[t].product == Utils.LookupBond(t)
                && byTicker[t].positions == ZeroBooks() && byTicker[t].entries == []
      ensures fresh(bus) && bus.listeners == [] && bus.trace == []
    {
      var bondMap := Utils.GetProductMap();
      Utils.ProductTableKeys();
      var tickers := Utils.Tickers();
      assert forall i :: 0 <= i < |tickers| ==> tickers[i] in bondMap by {
        forall i | 0 <= i < |tickers| ensures tickers[i] in bondMap {
          assert tickers[i] in tickers;
        }
      }
      var m := NewPositions(tickers, bondMap);
      byTicker := m;
      bus := new Service<Position>();
    }

    /** The position for a ticker; the ticker must be present (find() is dereferenced unchecked). */
    function GetData(key: string): (p: Position)
      reads this, byTicker.Values
      requires key in byTicker
      ensures Valid() ==> p.product.ticker == key && p.Valid()
    {
      byTicker[key]
    }

    /**
     * Books the trade into its ticker's position, then notifies the listeners
     * once with that position. The ticker must be known and the book one of
     * the three: otherwise the source dereferences an end() iterator.
     */
    method AddTrade(trade: Trade)
      requires Valid()
      requires trade.product.ticker in byTicker && trade.book in BookSet()
      modifies bus, byTicker[trade.product.ticker]
      ensures Valid()
      ensures var p := byTicker[trade.product.ticker];
                && p.entries == old(p.entries) + [EntryOf(trade)]
                && p.positions == Booked(old(p.positions), trade.book, trade.quantity, trade.side)
      ensures bus.listeners == old(bus.listeners)
      ensures bus.trace == old(bus.trace) + Deliveries(bus.listeners, byTicker[trade.product.ticker])
    {
      var pos := byTicker[trade.product.ticker];
      pos.UpdatePosition(trade.book, trade.quantity, trade.side);
      bus.Notify(pos);
    }
  }

  /** The constructor's loop: one fresh all-zero Position per ticker, keyed by ticker. */
  method NewPositions(tickers: seq<string>, bondMap: map<string, Bond>) returns (m: map<string, Position>)
    requires forall i :: 0 <= i < |tickers| ==> tickers[i] in bondMap && bondMap[tickers[i]].ticker == tickers[i]
    ensures m.Keys == set t | t in tickers
    ensures forall t :: t in m ==>
              fresh(m[t]) && m[t].product == bondMap[t] && m[t].product.ticker == t
              && m[t].Valid() && m[t].positions == ZeroBooks() && m[t].entries == []
  {
    m := map[];
    for i := 0 to |tickers|
      invariant m.Keys == set j | 0 <= j < i :: tickers[j]
      invariant forall t :: t in m ==>
                  fresh(m[t]) && m[t].product == bondMap[t] && m[t].product.ticker == t
                  && m[t].Valid() && m[t].positions == ZeroBooks() && m[t].entries == []
    {
      var p := new Position(bondMap[tickers[i]]);
      if tickers[i] !in m {
        m := m[tickers[i] := p];
      }
    }
    assert forall t :: t in tickers ==> exists j :: 0 <= j < |tickers| && tickers[j] == t;
  }

  /**
   * BUY 1,000,000 then SELL 400,000 of B02y in TRSY1, booked through a fresh
   * position service: B02y's position holds exactly those two updates.
   */
  method BuyThenSellThroughService() returns (p: Position)
    ensures p.Valid() && p.product == Utils.LookupBond("B02y")
    ensures p.entries == [Entry("TRSY1", 1000000, BUY), Entry("TRSY1", 400000, SELL)]
  {
    var service := new PositionService();
    var bond := Utils.LookupBond("B02y");
    Utils.ListedTicker("B02y");
    p := service.GetData("B02y");
    service.AddTrade(Trade(bond, "T1", 99.5, "TRSY1", 1000000, BUY));
    service.AddTrade(Trade(bond, "T2", 99.5, "TRSY1", 400000, SELL));
  }

  /** In any valid service state, each book holds the signed sum of the trades booked to it. */
  lemma ServiceBooksAreSignedSums(s: PositionService, ticker: string)
    requires s.Valid() && ticker in s.byTicker
    ensures forall b :: b in BookSet() ==>
              s.byTicker[ticker].positions[b] == SignedSum(s.byTicker[ticker].entries, b)
    ensures AggregateOf(s.byTicker[ticker].positions) == NetQuantity(s.byTicker[ticker].entries)
  {
    BooksAreSignedSums(s.byTicker[ticker].entries);
    AggregateIsNetQuantity(s.byTicker[ticker].entries);
  }
}
