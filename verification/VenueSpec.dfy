/** The simulated venue: a book per symbol, quoted by a market maker around a price that never moves. */
module VenueSpec {
  import opened Types
  import opened BookSpec
  import opened BestPrices

  /** Order ids from here on belong to the market maker. */
  const QUOTE_ID_BASE: nat := 0x8000_0000_0000_0000

  /** Symbols are numbered in the order of their names; 0 is the empty name. */
  type Symbol = nat

  datatype SymbolConfig = SymbolConfig(symbol: Symbol, reference: I64, levels: nat, qtyPerLevel: U64, spacingBps: nat)

  datatype VenueError =
    | UnknownSymbol(symbol: Symbol)
    | InvalidConfig(symbol: Symbol)
    | Rejected(symbol: Symbol, source: OrderError)

  datatype Market = Market(config: SymbolConfig, step: nat, book: Book, quoteIds: seq<nat>)

  datatype Venue = Venue(markets: map<Symbol, Market>, nextQuoteId: nat)

  /** First key of an ordered map or set. */
  function Lowest(keys: set<nat>): (k: nat)
    requires keys != {}
    ensures k in keys && forall j :: j in keys ==> k <= j
  {
    BestPrice(Sell, keys)
  }

  // ---------------------------------------------------------- configuration

  /** Level spacing in ticks of a valid configuration. */
  function LevelStep(c: SymbolConfig): Result<nat, VenueError> {
    if c.symbol == 0 || c.reference <= 0 || c.levels == 0 || c.qtyPerLevel == 0 || c.spacingBps == 0 then
      Err(InvalidConfig(c.symbol))
    else
      var step := Max(c.reference * c.spacingBps / 10_000, 1);
      if c.reference - step * c.levels <= 0 || c.reference + step * c.levels > I64_MAX then Err(InvalidConfig(c.symbol))
      else Ok(step)
  }

  /** The markets of a list of configurations, still without quotes. */
  function Listed(configs: seq<SymbolConfig>): Result<map<Symbol, Market>, VenueError> {
    if configs == [] then Ok(map[])
    else
      var last := configs[|configs| - 1];
      match Listed(configs[..|configs| - 1])
      case Err(e) => Err(e)
      case Ok(markets) => ListOne(markets, last)
  }

  /** One market more, or why its configuration is refused. */
  function ListOne(markets: map<Symbol, Market>, c: SymbolConfig): Result<map<Symbol, Market>, VenueError> {
    match LevelStep(c)
    case Err(e) => Err(e)
    case Ok(step) =>
      if c.symbol in markets then Err(InvalidConfig(c.symbol))
      else Ok(markets[c.symbol := Market(c, step, EMPTY, [])])
  }

  // ---------------------------------------------------------------- quoting

  function QuotePrice(c: SymbolConfig, step: nat, side: Side, level: nat): int {
    if side.Sell? then c.reference + step * level else c.reference - step * level
  }

  /** A quote; a valid configuration keeps its price positive and in range (`VenueLaws.QuoteIsSound`). */
  function Quote(c: SymbolConfig, step: nat, side: Side, level: nat, id: nat): Order {
    Order(id, side, Some(Clamp(QuotePrice(c, step, side, level), I64_MIN, I64_MAX)), c.qtyPerLevel, 0, GTC)
  }

  function Post(m: Market, quote: Order): Market {
    var (book, r) := Submit(m.book, quote);
    m.(book := book, quoteIds := if r.Ok? then m.quoteIds + [quote.id] else m.quoteIds)
  }

  /** Posts quotes in order. */
  function PostAll(m: Market, quotes: seq<Order>): Market {
    if quotes == [] then m else Post(PostAll(m, quotes[..|quotes| - 1]), quotes[|quotes| - 1])
  }

  /** The quotes of the first `n` levels with ids from `first` on: level by level, the sell before the buy. */
  function LadderQuotes(c: SymbolConfig, step: nat, first: nat, n: nat): seq<Order> {
    if n == 0 then []
    else LadderQuotes(c, step, first, n - 1)
         + [Quote(c, step, Sell, n, first + 2 * (n - 1)), Quote(c, step, Buy, n, first + 2 * (n - 1) + 1)]
  }

  function CancelAll(book: Book, ids: seq<nat>): Book {
    if ids == [] then book else Cancel(CancelAll(book, ids[..|ids| - 1]), ids[|ids| - 1]).0
  }

  /** Replaces every quote of a market with a full ladder. */
  function Refresh(m: Market, next: nat): Market {
    PostAll(m.(book := CancelAll(m.book, m.quoteIds), quoteIds := []),
            LadderQuotes(m.config, m.step, next, m.config.levels))
  }

  /** One market's turn in a refresh. */
  function RefreshOne(v: Venue, s: Symbol): (r: Venue)
    requires s in v.markets
    ensures r.markets.Keys == v.markets.Keys
  {
    Venue(v.markets[s := Refresh(v.markets[s], v.nextQuoteId)], v.nextQuoteId + 2 * v.markets[s].config.levels)
  }

  /** Refreshes the markets of `todo`, in order. */
  function RefreshFrom(v: Venue, todo: set<Symbol>): (r: Venue)
    requires todo <= v.markets.Keys
    ensures r.markets.Keys == v.markets.Keys
    decreases todo
  {
    if todo == {} then v else RefreshFrom(RefreshOne(v, Lowest(todo)), todo - {Lowest(todo)})
  }

  lemma RefreshFromStep(v: Venue, todo: set<Symbol>, s: Symbol, next: Venue)
    requires {} < todo <= v.markets.Keys && s == Lowest(todo) && next == RefreshOne(v, s)
    ensures RefreshFrom(next, todo - {s}) == RefreshFrom(v, todo)
  {
  }

  function RefreshQuotes(v: Venue): (r: Venue)
    ensures r.markets.Keys == v.markets.Keys
  {
    RefreshFrom(v, v.markets.Keys)
  }

  function NewVenue(configs: seq<SymbolConfig>): Result<Venue, VenueError> {
    match Listed(configs)
    case Err(e) => Err(e)
    case Ok(markets) => Ok(RefreshQuotes(Venue(markets, QUOTE_ID_BASE)))
  }

  // ----------------------------------------------------------------- trading

  function Execute(v: Venue, symbol: Symbol, order: Order): (Venue, Result<SubmitResult, VenueError>) {
    if symbol !in v.markets then (v, Err(UnknownSymbol(symbol)))
    else
      var m := v.markets[symbol];
      var (book, r) := Submit(m.book, order);
      (v.(markets := v.markets[symbol := m.(book := book)]),
       match r case Ok(result) => Ok(result) case Err(e) => Err(Rejected(symbol, e)))
  }

  function Mid(v: Venue, symbol: Symbol): Option<I64> {
    if symbol in v.markets then v.markets[symbol].book.Mid() else None
  }

  function Reference(v: Venue, symbol: Symbol): Option<I64> {
    if symbol in v.markets then Some(v.markets[symbol].config.reference) else None
  }
}
