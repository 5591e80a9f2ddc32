/** The venue as the source keeps it: one order book object per symbol, requoted in place. */
module SimulatedVenues {
  import opened Types
  import opened BookSpec
  import opened OrderBooks
  import Spec = VenueSpec
  import opened VenueSpec

  datatype Listing = Listing(config: SymbolConfig, step: nat, book: OrderBook, quoteIds: seq<nat>)

  // --------------------------------------------------- markets with their books

  function Books(markets: map<Symbol, Listing>): set<OrderBook> {
    set s | s in markets :: markets[s].book
  }

  ghost predicate AllValid(markets: map<Symbol, Listing>)
    reads Books(markets)
  {
    forall s :: s in markets ==> markets[s].book.Valid()
  }

  /** No two symbols share a book. */
  predicate Distinct(markets: map<Symbol, Listing>) {
    forall s, t :: s in markets && t in markets && s != t ==> markets[s].book != markets[t].book
  }

  ghost function MarketView(l: Listing): Market
    reads l.book
  {
    Market(l.config, l.step, l.book.View(), l.quoteIds)
  }

  ghost function Views(markets: map<Symbol, Listing>): map<Symbol, Market>
    reads Books(markets)
  {
    map s | s in markets :: MarketView(markets[s])
  }

  lemma ReplaceKeepsBooks(markets: map<Symbol, Listing>, s: Symbol, l: Listing)
    requires s in markets && l.book == markets[s].book && Distinct(markets)
    ensures Distinct(markets[s := l]) && Books(markets[s := l]) == Books(markets)
  {
    forall t | t in markets ensures markets[t].book in Books(markets[s := l]) {
      assert t in markets[s := l];
    }
  }

  lemma PutKeepsValid(markets: map<Symbol, Listing>, s: Symbol, l: Listing)
    requires AllValid(markets) && l.book.Valid()
    ensures AllValid(markets[s := l])
  {
  }

  lemma PutView(markets: map<Symbol, Listing>, s: Symbol, l: Listing)
    ensures Views(markets[s := l]) == Views(markets)[s := MarketView(l)]
  {
  }

  // ------------------------------------------------------------------ quoting

  /** Cancels the quotes of one market. */
  method CancelQuotes(market: Listing)
    requires market.book.Valid()
    modifies market.book
    ensures market.book.Valid()
    ensures market.book.View() == CancelAll(old(market.book.View()), market.quoteIds)
  {
    ghost var start := market.book.View();
    for i := 0 to |market.quoteIds|
      invariant market.book.Valid() && market.book.View() == CancelAll(start, market.quoteIds[..i])
    {
      assert market.quoteIds[..i + 1][..i] == market.quoteIds[..i];
      var _ := market.book.CancelOrder(market.quoteIds[i]);
    }
    assert market.quoteIds[..|market.quoteIds|] == market.quoteIds;
  }

  /** Submits one quote and keeps its id if the book took it. */
  method PostQuote(market: Listing, quote: Order) returns (r: Listing)
    requires market.book.Valid()
    modifies market.book
    ensures market.book.Valid() && r == market.(quoteIds := r.quoteIds)
    ensures MarketView(r) == Post(old(MarketView(market)), quote)
  {
    var result := market.book.SubmitOrder(quote);
    r := market.(quoteIds := if result.Ok? then market.quoteIds + [quote.id] else market.quoteIds);
  }

  /** Posts one quote more. */
  method PostMore(market: Listing, quote: Order, ghost start: Market, ghost posted: seq<Order>) returns (r: Listing)
    requires market.book.Valid() && MarketView(market) == PostAll(start, posted)
    modifies market.book
    ensures market.book.Valid() && r == market.(quoteIds := r.quoteIds)
      && MarketView(r) == PostAll(start, posted + [quote])
  {
    assert (posted + [quote])[..|posted|] == posted;
    r := PostQuote(market, quote);
  }

  lemma LadderQuotesStep(c: SymbolConfig, step: nat, first: nat, k: nat, n: nat)
    requires n == k + 1
    ensures LadderQuotes(c, step, first, n)
      == LadderQuotes(c, step, first, k) + [Quote(c, step, Sell, n, first + 2 * k)]
        + [Quote(c, step, Buy, n, first + 2 * k + 1)]
  {
  }

  method PostPair(market: Listing, sell: Order, buy: Order, ghost start: Market, ghost posted: seq<Order>)
    returns (r: Listing)
    requires market.book.Valid() && MarketView(market) == PostAll(start, posted)
    modifies market.book
    ensures market.book.Valid() && r == market.(quoteIds := r.quoteIds)
    ensures MarketView(r) == PostAll(start, posted + [sell] + [buy])
  {
    r := PostMore(market, sell, start, posted);
    r := PostMore(r, buy, start, posted + [sell]);
  }

  /** Posts the level after the first `k`. */
  method PostLevel(market: Listing, first: nat, k: nat, n: nat, ghost start: Market, ghost posted: seq<Order>)
    returns (r: Listing, ghost more: seq<Order>)
    requires n == k + 1 && posted == LadderQuotes(market.config, market.step, first, k)
    requires market.book.Valid() && MarketView(market) == PostAll(start, posted)
    modifies market.book
    ensures market.book.Valid() && r == market.(quoteIds := r.quoteIds)
    ensures more == LadderQuotes(market.config, market.step, first, n) && MarketView(r) == PostAll(start, more)
  {
    var sell := Quote(market.config, market.step, Sell, n, first + 2 * k);
    var buy := Quote(market.config, market.step, Buy, n, first + 2 * k + 1);
    r := PostPair(market, sell, buy, start, posted);
    more := posted + [sell] + [buy];
    LadderQuotesStep(market.config, market.step, first, k, n);
  }

  /** Posts a full ladder with ids from `first` on. */
  method PostLadder(market: Listing, first: nat) returns (r: Listing, later: nat)
    requires market.book.Valid()
    modifies market.book
    ensures market.book.Valid() && r == market.(quoteIds := r.quoteIds)
    ensures MarketView(r) == PostAll(old(MarketView(market)),
                                     LadderQuotes(market.config, market.step, first, market.config.levels))
    ensures later == first + 2 * market.config.levels
  {
    r := market;
    ghost var start := MarketView(market);
    ghost var posted: seq<Order> := [];
    for level := 0 to market.config.levels
      invariant market.book.Valid() && r == market.(quoteIds := r.quoteIds)
      invariant MarketView(r) == PostAll(start, posted)
        && posted == LadderQuotes(market.config, market.step, first, level)
    {
      r, posted := PostLevel(r, first, level, level + 1, start, posted);
    }
    later := first + 2 * market.config.levels;
  }

  /** Replaces every quote of one market with a full ladder. */
  method Requote(market: Listing, next: nat) returns (r: Listing, later: nat)
    requires market.book.Valid()
    modifies market.book
    ensures market.book.Valid() && r == market.(quoteIds := r.quoteIds)
    ensures MarketView(r) == Refresh(old(MarketView(market)), next) && later == next + 2 * market.config.levels
  {
    CancelQuotes(market);
    r, later := PostLadder(market.(quoteIds := []), next);
  }

  /** Requotes one market; the others keep their books. */
  method RequoteAt(markets: map<Symbol, Listing>, s: Symbol, next: nat) returns (r: Listing, later: nat)
    requires s in markets && AllValid(markets) && Distinct(markets)
    modifies markets[s].book
    ensures Views(markets) == old(Views(markets))[s := MarketView(markets[s])] && AllValid(markets)
    ensures r == markets[s].(quoteIds := r.quoteIds)
    ensures MarketView(r) == Refresh(old(Views(markets))[s], next) && later == next + 2 * markets[s].config.levels
  {
    r, later := Requote(markets[s], next);
    assert forall t :: t in markets && t != s ==> unchanged(markets[t].book);
  }

  method RequoteMarket(markets: map<Symbol, Listing>, s: Symbol, next: nat)
    returns (r: map<Symbol, Listing>, later: nat)
    requires s in markets && AllValid(markets) && Distinct(markets)
    modifies markets[s].book
    ensures AllValid(r) && Distinct(r) && Books(r) == Books(markets) && r.Keys == markets.Keys
    ensures Views(r) == old(Views(markets))[s := Refresh(old(Views(markets))[s], next)]
    ensures later == next + 2 * markets[s].config.levels
  {
    var quoted;
    quoted, later := RequoteAt(markets, s, next);
    r := PutListing(markets, s, quoted);
    UpdateTwice(old(Views(markets)), s, MarketView(markets[s]), MarketView(quoted));
  }

  method PutListing(markets: map<Symbol, Listing>, s: Symbol, l: Listing) returns (r: map<Symbol, Listing>)
    requires s in markets && l.book == markets[s].book && AllValid(markets) && Distinct(markets)
    ensures AllValid(r) && Distinct(r) && Books(r) == Books(markets) && r.Keys == markets.Keys
    ensures Views(r) == Views(markets)[s := MarketView(l)]
  {
    ReplaceKeepsBooks(markets, s, l);
    assert l.book.Valid() by { assert markets[s].book.Valid(); }
    PutKeepsValid(markets, s, l);
    PutView(markets, s, l);
    r := markets[s := l];
  }

  lemma RefreshTurn(before: map<Symbol, Market>, next: nat, todo: set<Symbol>, s: Symbol, after: map<Symbol, Market>,
                    later: nat)
    requires {} < todo <= before.Keys && s == Lowest(todo)
    requires after == before[s := Refresh(before[s], next)] && later == next + 2 * before[s].config.levels
    ensures after.Keys == before.Keys
      && RefreshFrom(Venue(after, later), todo - {s}) == RefreshFrom(Venue(before, next), todo)
  {
    RefreshFromStep(Venue(before, next), todo, s, Venue(after, later));
  }

  /** The turn of the first market left in a refresh. */
  method RequoteFirst(markets: map<Symbol, Listing>, todo: set<Symbol>, s: Symbol, next: nat)
    returns (r: map<Symbol, Listing>, later: nat)
    requires AllValid(markets) && Distinct(markets) && {} < todo <= markets.Keys && s == Lowest(todo)
    modifies Books(markets)
    ensures AllValid(r) && Distinct(r) && Books(r) == Books(markets) && r.Keys == markets.Keys
    ensures RefreshFrom(Venue(Views(r), later), todo - {s}) == RefreshFrom(Venue(old(Views(markets)), next), todo)
  {
    ghost var before := Views(markets);
    r, later := RequoteMarket(markets, s, next);
    RefreshTurn(before, next, todo, s, Views(r), later);
  }

  /** Requotes every market in order. */
  method RequoteAll(start: map<Symbol, Listing>, first: nat) returns (markets: map<Symbol, Listing>, next: nat)
    requires AllValid(start) && Distinct(start)
    modifies Books(start)
    ensures AllValid(markets) && Distinct(markets) && Books(markets) == Books(start)
    ensures Venue(Views(markets), next) == Spec.RefreshQuotes(Venue(old(Views(start)), first))
  {
    markets, next := start, first;
    assert Views(start).Keys == start.Keys;
    var todo := start.Keys;
    while todo != {}
      invariant AllValid(markets) && Distinct(markets) && Books(markets) == Books(start)
      invariant todo <= markets.Keys
      invariant RefreshFrom(Venue(Views(markets), next), todo)
        == RefreshFrom(Venue(old(Views(start)), first), start.Keys)
      decreases todo
    {
      var s := Lowest(todo);
      markets, next := RequoteFirst(markets, todo, s, next);
      todo := todo - {s};
    }
  }

  /** Submits to one market; the others keep their books. */
  method SubmitAt(markets: map<Symbol, Listing>, s: Symbol, order: Order) returns (r: Result<SubmitResult, OrderError>)
    requires s in markets && AllValid(markets) && Distinct(markets)
    modifies markets[s].book
    ensures Views(markets) == old(Views(markets))[s := MarketView(markets[s])] && AllValid(markets)
    ensures (markets[s].book.View(), r) == Submit(old(markets[s].book.View()), order)
  {
    r := markets[s].book.SubmitOrder(order);
    assert forall t :: t in markets && t != s ==> unchanged(markets[t].book);
  }

  class SimulatedVenue {
    var markets: map<Symbol, Listing>
    var nextQuoteId: nat
    /** What the books and quotes stand for. */
    ghost var shown: Venue

    ghost predicate Valid()
      reads this, Books(markets)
    {
      shown == Venue(Views(markets), nextQuoteId) && Distinct(markets) && AllValid(markets)
    }

    constructor (listed: map<Symbol, Listing>, ghost v: Venue)
      requires AllValid(listed) && v == Venue(Views(listed), QUOTE_ID_BASE)
      ensures markets == listed && nextQuoteId == QUOTE_ID_BASE && shown == v
      ensures Views(markets) == old(Views(listed)) && AllValid(markets)
    {
      markets, nextQuoteId := listed, QUOTE_ID_BASE;
      shown := v;
    }

    method Install(listed: map<Symbol, Listing>, next: nat)
      requires AllValid(listed)
      modifies `markets, `nextQuoteId
      ensures markets == listed && nextQuoteId == next && Views(markets) == old(Views(listed)) && AllValid(markets)
    {
      markets, nextQuoteId := listed, next;
      assert forall b :: b in Books(markets) ==> unchanged(b);
    }

    ghost method Show(v: Venue)
      requires AllValid(markets)
      modifies `shown
      ensures Views(markets) == old(Views(markets)) && AllValid(markets) && shown == v
    {
      shown := v;
      assert forall b :: b in Books(markets) ==> unchanged(b);
    }

    /** Replaces every quote of every market with a full ladder. */
    method RefreshQuotes()
      requires Valid()
      modifies this, Books(markets)
      ensures Valid() && Books(markets) == old(Books(markets)) && shown == Spec.RefreshQuotes(old(shown))
    {
      var quoted, next := RequoteAll(markets, nextQuoteId);
      Install(quoted, next);
      Show(Venue(Views(markets), nextQuoteId));
    }

    function Mid(symbol: Symbol): (mid: Option<I64>)
      requires Valid()
      reads this, Books(markets)
      ensures mid == Spec.Mid(shown, symbol)
    {
      if symbol in markets then markets[symbol].book.Mid() else None
    }

    function Reference(symbol: Symbol): (price: Option<I64>)
      requires Valid()
      reads this, Books(markets)
      ensures price == Spec.Reference(shown, symbol)
    {
      if symbol in markets then Some(markets[symbol].config.reference) else None
    }

    /** Sends an order to a symbol's book. */
    method Execute(symbol: Symbol, order: Order) returns (r: Result<SubmitResult, VenueError>)
      requires Valid()
      modifies this, Books(markets)
      ensures Valid() && markets == old(markets) && (shown, r) == Spec.Execute(old(shown), symbol, order)
    {
      if symbol !in markets {
        return Err(UnknownSymbol(symbol));
      }
      ghost var before := shown;
      var result := SubmitAt(markets, symbol, order);
      Show(Venue(Views(markets), nextQuoteId));
      r := match result case Ok(done) => Ok(done) case Err(e) => Err(Rejected(symbol, e));
      ExecuteMeans(before, symbol, order, markets[symbol].book.View(), result);
    }
  }

  lemma ExecuteMeans(v: Venue, symbol: Symbol, order: Order, book: Book, result: Result<SubmitResult, OrderError>)
    requires symbol in v.markets && Submit(v.markets[symbol].book, order) == (book, result)
    ensures Spec.Execute(v, symbol, order)
      == (v.(markets := v.markets[symbol := v.markets[symbol].(book := book)]),
          match result case Ok(done) => Ok(done) case Err(e) => Err(Rejected(symbol, e)))
  {
  }

  // -------------------------------------------------------------- starting up

  lemma ListOneMore(configs: seq<SymbolConfig>, i: nat, markets: map<Symbol, Market>)
    requires i < |configs| && Listed(configs[..i]) == Ok(markets)
    ensures Listed(configs[..i + 1]) == ListOne(markets, configs[i])
  {
    assert configs[..i + 1][..i] == configs[..i];
  }

  /** The markets to open, so far: all in order, each with a new book of its own. */
  twostate predicate Opened(new listed: map<Symbol, Listing>)
    reads Books(listed)
  {
    AllValid(listed) && Distinct(listed) && forall s :: s in listed ==> fresh(listed[s].book)
  }

  /** Checks the configurations in order and opens an empty book for each. */
  method ListMarkets(configs: seq<SymbolConfig>) returns (r: Result<map<Symbol, Listing>, VenueError>)
    ensures r.Err? ==> Listed(configs) == Err(r.error)
    ensures r.Ok? ==> Opened(r.value) && Listed(configs) == Ok(Views(r.value))
  {
    var listed: map<Symbol, Listing> := map[];
    for i := 0 to |configs|
      invariant Opened(listed) && Listed(configs[..i]) == Ok(Views(listed))
    {
      ListOneMore(configs, i, Views(listed));
      r := ListMarket(listed, configs[i]);
      if r.Err? {
        ListingFails(configs, i + 1);
        return;
      }
      listed := r.value;
    }
    assert configs[..|configs|] == configs;
    r := Ok(listed);
  }

  method ListMarket(listed: map<Symbol, Listing>, c: SymbolConfig) returns (r: Result<map<Symbol, Listing>, VenueError>)
    requires AllValid(listed) && Distinct(listed)
    ensures r.Err? ==> ListOne(old(Views(listed)), c) == Err(r.error)
    ensures r.Ok? ==>
      && AllValid(r.value) && Distinct(r.value) && ListOne(old(Views(listed)), c) == Ok(Views(r.value))
      && forall s :: s in r.value ==> fresh(r.value[s].book) || (s in listed && r.value[s].book == listed[s].book)
  {
    var step := LevelStep(c);
    if step.Err? || c.symbol in listed {
      return Err(if step.Err? then step.error else InvalidConfig(c.symbol));
    }
    var more := OpenMarket(listed, c, step.value);
    r := Ok(more);
  }

  method OpenMarket(listed: map<Symbol, Listing>, c: SymbolConfig, step: nat) returns (r: map<Symbol, Listing>)
    requires AllValid(listed) && Distinct(listed) && c.symbol !in listed
    ensures c.symbol in r && fresh(r[c.symbol].book) && r == listed[c.symbol := r[c.symbol]]
    ensures AllValid(r) && Distinct(r) && Views(r) == old(Views(listed))[c.symbol := Market(c, step, EMPTY, [])]
  {
    var book := OpenBook(listed, c, step);
    r := AddListing(listed, c.symbol, Listing(c, step, book, []));
  }

  method OpenBook(listed: map<Symbol, Listing>, c: SymbolConfig, step: nat) returns (book: OrderBook)
    requires AllValid(listed)
    ensures AllValid(listed) && Views(listed) == old(Views(listed))
    ensures fresh(book) && (forall t :: t in listed ==> listed[t].book != book)
    ensures book.Valid() && MarketView(Listing(c, step, book, [])) == Market(c, step, EMPTY, [])
  {
    book := new OrderBook();
  }

  method AddListing(listed: map<Symbol, Listing>, s: Symbol, l: Listing) returns (r: map<Symbol, Listing>)
    requires AllValid(listed) && Distinct(listed) && l.book.Valid() && s !in listed
    requires forall t :: t in listed ==> listed[t].book != l.book
    ensures r == listed[s := l] && AllValid(r) && Distinct(r) && Views(r) == Views(listed)[s := MarketView(l)]
  {
    PutKeepsValid(listed, s, l);
    PutView(listed, s, l);
    r := listed[s := l];
  }

  lemma {:induction false} ListingFails(configs: seq<SymbolConfig>, n: nat)
    requires n <= |configs| && Listed(configs[..n]).Err?
    ensures Listed(configs) == Listed(configs[..n])
    decreases |configs| - n
  {
    if n == |configs| {
      assert configs[..n] == configs;
    } else {
      assert configs[..n + 1][..n] == configs[..n];
      ListingFails(configs, n + 1);
    }
  }

  /** Validates the configurations and quotes every market. */
  method Open(configs: seq<SymbolConfig>) returns (r: Result<SimulatedVenue, VenueError>)
    ensures r.Err? ==> NewVenue(configs) == Err(r.error)
    ensures r.Ok? ==>
      && fresh(r.value) && fresh(Books(r.value.markets)) && r.value.Valid()
      && NewVenue(configs) == Ok(r.value.shown)
  {
    var listed := ListMarkets(configs);
    if listed.Err? {
      return Err(listed.error);
    }
    var venue := new SimulatedVenue(listed.value, Venue(Views(listed.value), QUOTE_ID_BASE));
    venue.RefreshQuotes();
    r := Ok(venue);
  }
}
