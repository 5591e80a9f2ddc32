/** What the venue keeps: full ladders after every refresh, and fair fills in between. */
module VenueLaws {
  import opened Types
  import opened DivMod
  import opened BookSpec
  import opened BookLaws
  import opened VenueSpec

  // ------------------------------------------------------------- the ladder

  predicate GoodConfig(c: SymbolConfig, step: nat) {
    LevelStep(c) == Ok(step)
  }

  lemma QuoteInRange(c: SymbolConfig, step: nat, side: Side, level: nat)
    requires GoodConfig(c, step) && 1 <= level <= c.levels
    ensures 0 < QuotePrice(c, step, side, level) <= I64_MAX
    ensures Fair(side, QuotePrice(c, step, side, level), c.reference)
  {
    MulMono(1, level, step);
    MulMono(level, c.levels, step);
    assert step * level == level * step && step * c.levels == c.levels * step;
  }

  /** Every quote of a valid configuration is a positive limit order on its own side of the reference. */
  lemma QuoteIsSound(c: SymbolConfig, step: nat, side: Side, level: nat, id: nat)
    requires GoodConfig(c, step) && 1 <= level <= c.levels
    ensures var o := Quote(c, step, side, level, id);
      o.Price() == QuotePrice(c, step, side, level) && RestsOn(o, side) && Fair(side, o.Price(), c.reference)
  {
    QuoteInRange(c, step, side, level);
  }

  /** The first `n` quotes of one side of a ladder whose ids start at `first`. */
  function Ladder(c: SymbolConfig, step: nat, side: Side, first: nat, n: nat): seq<Order> {
    if n == 0 then []
    else
      Ladder(c, step, side, first, n - 1)
      + [Quote(c, step, side, n, first + 2 * (n - 1) + (if side.Sell? then 0 else 1))]
  }

  function LadderBook(c: SymbolConfig, step: nat, first: nat, n: nat): Book {
    Book(Ladder(c, step, Buy, first, n), Ladder(c, step, Sell, first, n))
  }

  /** The market shows the whole ladder and nothing else, whatever its ids. */
  ghost predicate FullLadder(m: Market) {
    exists first: nat :: m.book == LadderBook(m.config, m.step, first, m.config.levels)
  }

  /** On the market maker's side of the reference price, at less than twice it. */
  predicate Fair(side: Side, price: int, reference: int) {
    if side.Sell? then reference < price < 2 * reference else 0 < price < reference
  }

  ghost predicate AllFair(queue: seq<Order>, side: Side, reference: int) {
    forall o :: o in queue ==> Fair(side, o.Price(), reference)
  }

  /** Only quotes rest, bids below the reference price and offers above it, however drained. */
  ghost predicate MarketOk(m: Market) {
    && WellFormed(m.book)
    && (forall id :: id in m.book.AllIds() ==> id in m.quoteIds)
    && (forall id :: id in m.quoteIds ==> QUOTE_ID_BASE <= id)
    && AllFair(m.book.bids, Buy, m.config.reference) && AllFair(m.book.asks, Sell, m.config.reference)
  }

  // ---------------------------------------------------------- taking it down

  lemma {:induction false} CancelAllEmpties(book: Book, ids: seq<nat>)
    requires WellFormed(book)
    ensures WellFormed(CancelAll(book, ids))
    ensures forall id :: id in CancelAll(book, ids).AllIds() ==> id in book.AllIds() && id !in ids
  {
    if ids != [] {
      var init, last := ids[..|ids| - 1], ids[|ids| - 1];
      CancelAllEmpties(book, init);
      CancelKeepsWellFormed(CancelAll(book, init), last);
      CancelRemovesExactlyOne(CancelAll(book, init), last);
      assert ids == init + [last];
    }
  }

  lemma NoIdsNoOrders(book: Book)
    requires book.AllIds() == {}
    ensures book == EMPTY
  {
    assert book.bids == [] by { NoIds(book.bids); }
    assert book.asks == [] by { NoIds(book.asks); }
  }

  lemma NoIds(queue: seq<Order>)
    ensures queue == [] <==> Ids(queue) == {}
  {
  }

  // --------------------------------------------------------- putting it back

  lemma {:induction false} NothingAt(queue: seq<Order>, price: int)
    requires forall o :: o in queue ==> o.Price() != price
    ensures QtyAt(queue, price) == 0
  {
    if queue != [] {
      assert queue[0] in queue;
      NothingAt(queue[1..], price);
    }
  }

  lemma {:induction false} InsertLast(side: Side, queue: seq<Order>, o: Order)
    requires forall x :: x in queue ==> !Before(side, o.Price(), x.Price())
    ensures Insert(side, queue, o) == queue + [o]
  {
    if queue != [] {
      assert queue[0] in queue;
      InsertLast(side, queue[1..], o);
    }
  }

  /** A quote behind its own side and away from the other rests untouched. */
  lemma QuoteRests(m: Market, quote: Order)
    requires WellFormed(m.book) && RestsOn(quote, quote.side) && quote.id !in m.book.AllIds()
    requires forall x :: x in m.book.Of(quote.side) ==> Before(quote.side, x.Price(), quote.Price())
    requires forall x :: x in m.book.Of(quote.side.Opposite()) ==> !quote.Accepts(x.Price())
    ensures Submit(m.book, quote).1 == Ok(SubmitResult([], 0, Resting(quote.qty)))
    ensures Post(m, quote) == m.(book := m.book.With(quote.side, m.book.Of(quote.side) + [quote]),
                                 quoteIds := m.quoteIds + [quote.id])
    ensures WellFormed(Post(m, quote).book)
  {
    var against := m.book.Of(quote.side.Opposite());
    NothingAt(m.book.Of(quote.side), quote.Price());
    InsertLast(quote.side, m.book.Of(quote.side), quote);
    assert against != [] ==> against[0] in against;
    assert Sweep(against, quote, quote.qty) == Swept([], against, quote.qty);
    assert quote.(qty := quote.qty) == quote;
    SubmitKeepsWellFormed(m.book, quote);
  }

  /** A market quoted up to level `n` with the ids from `first` on. */
  ghost predicate QuotedTo(m: Market, first: nat, n: nat) {
    && n <= m.config.levels
    && m.book == LadderBook(m.config, m.step, first, n) && WellFormed(m.book)
    && (forall id :: id in m.book.AllIds() ==> id in m.quoteIds)
    && (forall id :: id in m.quoteIds ==> first <= id < first + 2 * n)
  }

  lemma {:induction false} LadderMembers(c: SymbolConfig, step: nat, side: Side, first: nat, n: nat)
    requires GoodConfig(c, step) && n <= c.levels
    ensures AllFair(Ladder(c, step, side, first, n), side, c.reference)
    ensures forall o :: o in Ladder(c, step, side, first, n) ==>
      Before(side, o.Price(), QuotePrice(c, step, side, n + 1))
    ensures n > 0 ==> Ladder(c, step, side, first, n)[0].Price() == QuotePrice(c, step, side, 1)
  {
    if n > 0 {
      LadderMembers(c, step, side, first, n - 1);
      QuoteIsSound(c, step, side, n, first + 2 * (n - 1) + (if side.Sell? then 0 else 1));
      assert step * (n + 1) == step * n + step;
    }
  }

  lemma PostedLast(m: Market, quote: Order, first: nat, below: nat)
    requires (forall id :: id in m.book.AllIds() ==> id in m.quoteIds)
      && (forall id :: id in m.quoteIds ==> first <= id < below)
    requires first <= below == quote.id
    requires Post(m, quote) == m.(book := m.book.With(quote.side, m.book.Of(quote.side) + [quote]),
                                  quoteIds := m.quoteIds + [quote.id])
    ensures var after := Post(m, quote);
      (forall id :: id in after.book.AllIds() ==> id in after.quoteIds)
      && (forall id :: id in after.quoteIds ==> first <= id < below + 1)
  {
    IdsConcat(m.book.Of(quote.side), [quote]);
    assert Ids([quote]) == {quote.id};
  }

  lemma PostSell(m: Market, first: nat, n: nat)
    requires GoodConfig(m.config, m.step) && QuotedTo(m, first, n) && n < m.config.levels
    ensures var sell := Quote(m.config, m.step, Sell, n + 1, first + 2 * n);
      var after := Post(m, sell);
      && after == m.(book := Book(m.book.bids, m.book.asks + [sell]), quoteIds := m.quoteIds + [sell.id])
      && WellFormed(after.book) && AllFair(after.book.asks, Sell, m.config.reference)
      && (forall id :: id in after.book.AllIds() ==> id in after.quoteIds)
      && (forall id :: id in after.quoteIds ==> first <= id < first + 2 * n + 1)
  {
    var sell := Quote(m.config, m.step, Sell, n + 1, first + 2 * n);
    LadderMembers(m.config, m.step, Sell, first, n);
    LadderMembers(m.config, m.step, Buy, first, n);
    QuoteIsSound(m.config, m.step, Sell, n + 1, sell.id);
    QuoteRests(m, sell);
    PostedLast(m, sell, first, first + 2 * n);
  }

  lemma PostBuy(m: Market, asks: seq<Order>, first: nat, n: nat)
    requires GoodConfig(m.config, m.step) && n < m.config.levels
    requires m.book == Book(Ladder(m.config, m.step, Buy, first, n), asks) && AllFair(asks, Sell, m.config.reference)
    requires WellFormed(m.book)
    requires forall id :: id in m.book.AllIds() ==> id in m.quoteIds
    requires forall id :: id in m.quoteIds ==> first <= id < first + 2 * n + 1
    ensures var buy := Quote(m.config, m.step, Buy, n + 1, first + 2 * n + 1);
      var after := Post(m, buy);
      && after == m.(book := Book(m.book.bids + [buy], asks), quoteIds := m.quoteIds + [buy.id])
      && WellFormed(after.book)
      && (forall id :: id in after.book.AllIds() ==> id in after.quoteIds)
      && (forall id :: id in after.quoteIds ==> first <= id < first + 2 * n + 2)
  {
    var buy := Quote(m.config, m.step, Buy, n + 1, first + 2 * n + 1);
    LadderMembers(m.config, m.step, Buy, first, n);
    QuoteIsSound(m.config, m.step, Buy, n + 1, buy.id);
    QuoteRests(m, buy);
    PostedLast(m, buy, first, first + 2 * n + 1);
  }

  lemma LadderGrows(c: SymbolConfig, step: nat, side: Side, first: nat, n: nat)
    ensures Ladder(c, step, side, first, n + 1)
      == Ladder(c, step, side, first, n) + [Quote(c, step, side, n + 1, first + 2 * n + (if side.Sell? then 0 else 1))]
  {
  }

  lemma LevelPosted(m: Market, after: Market, first: nat, n: nat)
    requires GoodConfig(m.config, m.step) && n < m.config.levels
    requires after.config == m.config && after.step == m.step && WellFormed(after.book)
    requires m.book == LadderBook(m.config, m.step, first, n)
    requires after.book == Book(
      m.book.bids + [Quote(m.config, m.step, Buy, n + 1, first + 2 * n + 1)],
      m.book.asks + [Quote(m.config, m.step, Sell, n + 1, first + 2 * n)])
    requires forall id :: id in after.book.AllIds() ==> id in after.quoteIds
    requires forall id :: id in after.quoteIds ==> first <= id < first + 2 * n + 2
    ensures QuotedTo(after, first, n + 1)
  {
    LadderGrows(m.config, m.step, Sell, first, n);
    LadderGrows(m.config, m.step, Buy, first, n);
  }

  /** Posting level `n` extends the ladder by exactly that level: neither quote trades. */
  lemma PostLevelExtends(m: Market, after: Market, first: nat, k: nat, n: nat)
    requires GoodConfig(m.config, m.step) && QuotedTo(m, first, k) && n == k + 1 <= m.config.levels
    requires after == Post(Post(m, Quote(m.config, m.step, Sell, n, first + 2 * k)),
                           Quote(m.config, m.step, Buy, n, first + 2 * k + 1))
    ensures QuotedTo(after, first, n) && after.config == m.config && after.step == m.step
  {
    PostSell(m, first, k);
    var half := Post(m, Quote(m.config, m.step, Sell, n, first + 2 * k));
    PostBuy(half, half.book.asks, first, k);
    LevelPosted(m, after, first, k);
  }

  /** The ladder up to a level is the ladder below it and two quotes more. */
  lemma PostTwoMore(m: Market, c: SymbolConfig, step: nat, first: nat, k: nat, n: nat, earlier: Market)
    returns (after: Market)
    requires n == k + 1 && earlier == PostAll(m, LadderQuotes(c, step, first, k))
    ensures after == PostAll(m, LadderQuotes(c, step, first, n))
    ensures after == Post(Post(earlier, Quote(c, step, Sell, n, first + 2 * k)),
                          Quote(c, step, Buy, n, first + 2 * k + 1))
  {
    var below, quotes := LadderQuotes(c, step, first, k), LadderQuotes(c, step, first, n);
    var sell, buy := Quote(c, step, Sell, n, first + 2 * k), Quote(c, step, Buy, n, first + 2 * k + 1);
    after := PostAll(m, quotes);
    assert quotes == below + [sell, buy];
    assert quotes[..|quotes| - 1] == below + [sell];
    assert (below + [sell])[..|below|] == below;
    PostLast(m, below, sell, earlier);
    PostLast(m, below + [sell], buy, Post(earlier, sell));
    assert below + [sell] + [buy] == quotes;
  }

  lemma PostLast(m: Market, quotes: seq<Order>, quote: Order, earlier: Market)
    requires earlier == PostAll(m, quotes)
    ensures PostAll(m, quotes + [quote]) == Post(earlier, quote)
  {
    assert (quotes + [quote])[..|quotes|] == quotes;
  }

  lemma {:induction false} PostLevelsBuild(m: Market, first: nat, n: nat)
    requires GoodConfig(m.config, m.step) && QuotedTo(m, first, 0) && n <= m.config.levels
    ensures var r := PostAll(m, LadderQuotes(m.config, m.step, first, n));
      QuotedTo(r, first, n) && r.config == m.config && r.step == m.step
  {
    if n > 0 {
      var k := n - 1;
      PostLevelsBuild(m, first, k);
      var earlier := PostAll(m, LadderQuotes(m.config, m.step, first, k));
      var after := PostTwoMore(m, m.config, m.step, first, k, n, earlier);
      PostLevelExtends(earlier, after, first, k, n);
    }
  }

  lemma LadderMid(c: SymbolConfig, step: nat, first: nat)
    requires GoodConfig(c, step)
    ensures LadderBook(c, step, first, c.levels).Mid() == Some(c.reference)
  {
    LadderMembers(c, step, Buy, first, c.levels);
    LadderMembers(c, step, Sell, first, c.levels);
    assert Ladder(c, step, Buy, first, c.levels) != [] && Ladder(c, step, Sell, first, c.levels) != [];
    assert step * 1 == step;
  }

  /** A full ladder's mid is the reference price. */
  lemma FullLadderMid(m: Market)
    requires GoodConfig(m.config, m.step) && FullLadder(m)
    ensures m.book.Mid() == Some(m.config.reference)
  {
    var first: nat :| m.book == LadderBook(m.config, m.step, first, m.config.levels);
    LadderMid(m.config, m.step, first);
  }

  /** However drained, a market shows exactly the full ladder again after a refresh. */
  lemma RefreshRestores(m: Market, next: nat)
    requires GoodConfig(m.config, m.step) && MarketOk(m) && QUOTE_ID_BASE <= next
    ensures var r := Refresh(m, next);
      && r.config == m.config && r.step == m.step
      && r.book == LadderBook(m.config, m.step, next, m.config.levels)
      && FullLadder(r) && MarketOk(r)
  {
    var c, step := m.config, m.step;
    CancelAllEmpties(m.book, m.quoteIds);
    NoIdsNoOrders(CancelAll(m.book, m.quoteIds));
    var cleared := m.(book := EMPTY, quoteIds := []);
    assert QuotedTo(cleared, next, 0);
    PostLevelsBuild(cleared, next, c.levels);
    LadderMembers(c, step, Buy, next, c.levels);
    LadderMembers(c, step, Sell, next, c.levels);
  }

  // ----------------------------------------------------------------- trading

  /** A fill of a `side` taker at a price worse for it than the reference. */
  ghost predicate FairFill(f: Fill, side: Side, reference: int) {
    f.qty > 0 && Fair(side.Opposite(), f.price, reference)
  }

  lemma {:induction false} SweepIsFair(queue: seq<Order>, taker: Order, want: U64, reference: int)
    requires GoodQueue(taker.side.Opposite(), queue) && AllFair(queue, taker.side.Opposite(), reference)
    ensures forall f :: f in Sweep(queue, taker, want).fills ==> FairFill(f, taker.side, reference)
    ensures AllFair(Sweep(queue, taker, want).queue, taker.side.Opposite(), reference)
  {
    if want != 0 && queue != [] && taker.Accepts(queue[0].Price()) {
      var fill := Trade(taker, want, queue[0]);
      assert queue[0] in queue;
      if queue[0].qty <= want {
        SweepIsFair(queue[1..], taker, want - fill.qty, reference);
      }
    }
  }

  /** What the engine may send as a child order. */
  predicate IsChild(o: Order) {
    o.tif.IOC? && o.qty > 0 && o.id < QUOTE_ID_BASE && (o.limit.Some? ==> o.limit.value > 0)
  }

  /**
   * The book never rejects a child order; its fills are all worse for it than the reference price and
   * no more than it wants; and the market is as ready for the next one.
   */
  lemma ChildIsExecuted(m: Market, child: Order)
    requires MarketOk(m) && IsChild(child)
    ensures var (book, r) := Submit(m.book, child);
      && r.Ok? && FilledQty(r.value.fills) <= child.qty
      && (forall f :: f in r.value.fills ==> FairFill(f, child.side, m.config.reference))
      && MarketOk(m.(book := book))
  {
    var against := child.side.Opposite();
    SubmitKeepsWellFormed(m.book, child);
    SubmitConserves(m.book, child);
    SweepIsFair(m.book.Of(against), child, child.qty, m.config.reference);
    SweepKeepsGood(against, m.book.Of(against), child, child.qty);
  }

  // --------------------------------------------------------------- the venue

  ghost predicate GoodMarkets(v: Venue) {
    forall s :: s in v.markets ==> v.markets[s].config.symbol == s && GoodConfig(v.markets[s].config, v.markets[s].step)
  }

  ghost predicate VenueOk(v: Venue) {
    QUOTE_ID_BASE <= v.nextQuoteId && forall s :: s in v.markets ==> MarketOk(v.markets[s])
  }

  ghost predicate QuotedExcept(v: Venue, todo: set<Symbol>) {
    forall s :: s in v.markets && s !in todo ==> FullLadder(v.markets[s])
  }

  /** Every market shows its full ladder. */
  ghost predicate FullyQuoted(v: Venue) {
    QuotedExcept(v, {})
  }

  /** Same symbols, quoted around the same prices. */
  ghost predicate SameListing(v: Venue, w: Venue) {
    && v.markets.Keys == w.markets.Keys
    && forall s :: s in v.markets ==>
      w.markets[s].config == v.markets[s].config && w.markets[s].step == v.markets[s].step
  }

  lemma SameListingChains(u: Venue, v: Venue, w: Venue)
    requires SameListing(u, v) && SameListing(v, w)
    ensures SameListing(u, w)
  {
  }

  lemma SameListingIsGood(v: Venue, w: Venue)
    requires GoodMarkets(v) && SameListing(v, w)
    ensures GoodMarkets(w)
  {
  }

  /** Changing one market for another that is in order keeps the venue in order. */
  lemma ChangeMarket(v: Venue, s: Symbol, m: Market, later: nat)
    requires VenueOk(v) && s in v.markets && v.nextQuoteId <= later
    requires m.config == v.markets[s].config && m.step == v.markets[s].step && MarketOk(m)
    ensures VenueOk(Venue(v.markets[s := m], later)) && SameListing(v, Venue(v.markets[s := m], later))
  {
  }

  lemma RefreshStepOk(v: Venue, todo: set<Symbol>) returns (s: Symbol, m: Market, later: nat)
    requires GoodMarkets(v) && VenueOk(v) && {} < todo <= v.markets.Keys
    ensures s in todo && v.nextQuoteId <= later
    ensures m.config == v.markets[s].config && m.step == v.markets[s].step && MarketOk(m) && FullLadder(m)
    ensures RefreshFrom(v, todo) == RefreshFrom(Venue(v.markets[s := m], later), todo - {s})
  {
    s := Lowest(todo);
    m := Refresh(v.markets[s], v.nextQuoteId);
    later := v.nextQuoteId + 2 * v.markets[s].config.levels;
    RefreshFromStep(v, todo, s, Venue(v.markets[s := m], later));
    RefreshRestores(v.markets[s], v.nextQuoteId);
  }

  /** One market in full order more. */
  lemma QuoteMarket(v: Venue, s: Symbol, m: Market, later: nat, todo: set<Symbol>)
    requires QuotedExcept(v, todo) && FullLadder(m)
    ensures QuotedExcept(Venue(v.markets[s := m], later), todo - {s})
  {
  }

  lemma {:induction false} RefreshFromKeeps(v: Venue, todo: set<Symbol>)
    requires GoodMarkets(v) && VenueOk(v) && todo <= v.markets.Keys
    ensures SameListing(v, RefreshFrom(v, todo)) && VenueOk(RefreshFrom(v, todo))
    decreases todo
  {
    if todo != {} {
      var s, m, later := RefreshStepOk(v, todo);
      var next := Venue(v.markets[s := m], later);
      ChangeMarket(v, s, m, later);
      SameListingIsGood(v, next);
      RefreshFromKeeps(next, todo - {s});
      SameListingChains(v, next, RefreshFrom(next, todo - {s}));
    }
  }

  lemma {:induction false} RefreshFromQuotes(v: Venue, todo: set<Symbol>)
    requires GoodMarkets(v) && VenueOk(v) && todo <= v.markets.Keys && QuotedExcept(v, todo)
    ensures FullyQuoted(RefreshFrom(v, todo))
    decreases todo
  {
    if todo != {} {
      var s, m, later := RefreshStepOk(v, todo);
      ChangeMarket(v, s, m, later);
      SameListingIsGood(v, Venue(v.markets[s := m], later));
      QuoteMarket(v, s, m, later, todo);
      RefreshFromQuotes(Venue(v.markets[s := m], later), todo - {s});
    }
  }

  /** A refresh quotes every market in full, whatever traded before. */
  lemma RefreshQuotesRestores(v: Venue)
    requires GoodMarkets(v) && VenueOk(v)
    ensures var r := RefreshQuotes(v); SameListing(v, r) && VenueOk(r) && FullyQuoted(r)
  {
    RefreshFromKeeps(v, v.markets.Keys);
    RefreshFromQuotes(v, v.markets.Keys);
  }

  /** The mid of a fully quoted venue is the reference price. */
  lemma MidIsReference(v: Venue, s: Symbol)
    requires GoodMarkets(v) && FullyQuoted(v) && s in v.markets
    ensures Mid(v, s) == Reference(v, s) == Some(v.markets[s].config.reference)
  {
    FullLadderMid(v.markets[s]);
  }

  /** A child order is executed, fairly, whatever traded since the last refresh. */
  lemma ExecuteChild(v: Venue, symbol: Symbol, child: Order)
    requires VenueOk(v) && symbol in v.markets && IsChild(child)
    ensures var (w, r) := Execute(v, symbol, child);
      && r.Ok? && FilledQty(r.value.fills) <= child.qty
      && (forall f :: f in r.value.fills ==> FairFill(f, child.side, v.markets[symbol].config.reference))
      && VenueOk(w) && SameListing(v, w)
  {
    var m := v.markets[symbol];
    ChildIsExecuted(m, child);
    ChangeMarket(v, symbol, m.(book := Submit(m.book, child).0), v.nextQuoteId);
  }

  // ------------------------------------------------------------ starting up

  ghost predicate ValidListing(configs: seq<SymbolConfig>) {
    && (forall i :: 0 <= i < |configs| ==> LevelStep(configs[i]).Ok?)
    && (forall i, j :: 0 <= i < j < |configs| ==> configs[i].symbol != configs[j].symbol)
  }

  lemma {:induction false} ListedExactlyWhenValid(configs: seq<SymbolConfig>)
    ensures Listed(configs).Ok? <==> ValidListing(configs)
    ensures Listed(configs).Ok? ==>
      forall s :: s in Listed(configs).value <==> exists i :: 0 <= i < |configs| && configs[i].symbol == s
  {
    if configs != [] {
      var init, last := configs[..|configs| - 1], configs[|configs| - 1];
      ListedExactlyWhenValid(init);
      assert forall i :: 0 <= i < |init| ==> init[i] == configs[i];
      if ValidListing(configs) {
        assert ValidListing(init);
      }
    }
  }

  lemma {:induction false} ListedAreGood(configs: seq<SymbolConfig>)
    ensures Listed(configs).Ok? ==> var v := Venue(Listed(configs).value, QUOTE_ID_BASE);
      GoodMarkets(v) && forall s :: s in v.markets ==> v.markets[s].book == EMPTY && v.markets[s].quoteIds == []
  {
    if configs != [] {
      ListedAreGood(configs[..|configs| - 1]);
    }
  }

  /** A venue starts exactly on valid, distinct configurations, and starts fully quoted. */
  lemma NewVenueIsQuoted(configs: seq<SymbolConfig>)
    ensures NewVenue(configs).Ok? <==> ValidListing(configs)
    ensures NewVenue(configs).Ok? ==> var v := NewVenue(configs).value;
      && GoodMarkets(v) && VenueOk(v) && FullyQuoted(v)
      && forall s :: s in v.markets <==> exists i :: 0 <= i < |configs| && configs[i].symbol == s
  {
    ListedExactlyWhenValid(configs);
    ListedAreGood(configs);
    if Listed(configs).Ok? {
      var bare := Venue(Listed(configs).value, QUOTE_ID_BASE);
      RefreshQuotesRestores(bare);
      SameListingIsGood(bare, RefreshQuotes(bare));
    }
  }
}
