/** The ladder in plain numbers: how far apart its levels are, and what rests at each of them. */
module LadderLaws {
  import opened Types
  import opened DivMod
  import opened BookSpec
  import opened BookLaws
  import opened VenueSpec
  import opened VenueLaws

  /** The spacing in ticks: the reference price times the basis points, rounded down, and at least one. */
  predicate IsSpacing(c: SymbolConfig, step: nat) {
    && 1 <= step && c.reference * c.spacingBps < 10_000 * (step + 1)
    && (step == 1 || 10_000 * step <= c.reference * c.spacingBps)
  }

  /** A configuration with this spacing is accepted exactly when its numbers are positive and its ladder in range. */
  lemma SpacingExactly(c: SymbolConfig, step: nat)
    requires IsSpacing(c, step)
    ensures LevelStep(c) == Ok(step) <==>
      && c.symbol != 0 && c.reference > 0 && c.levels > 0 && c.qtyPerLevel > 0 && c.spacingBps > 0
      && step * c.levels < c.reference && c.reference + step * c.levels <= I64_MAX
    ensures LevelStep(c).Ok? ==> LevelStep(c) == Ok(step)
    ensures LevelStep(c).Err? ==> LevelStep(c).error == InvalidConfig(c.symbol)
  {
    if c.reference > 0 && c.spacingBps > 0 {
      MulMono(0, c.reference, c.spacingBps);
      SpacingIs(c.reference * c.spacingBps, step);
    }
  }

  lemma SpacingIs(product: nat, step: nat)
    requires 1 <= step && product < 10_000 * (step + 1) && (step == 1 || 10_000 * step <= product)
    ensures Max(product / 10_000, 1) == step
  {
  }

  /** Every configuration has one. */
  lemma HasSpacing(c: SymbolConfig) returns (step: nat)
    requires c.reference >= 0
    ensures IsSpacing(c, step)
  {
    MulMono(0, c.reference, c.spacingBps);
    step := Max(c.reference * c.spacingBps / 10_000, 1);
  }

  lemma AcceptedSpacing(c: SymbolConfig, step: nat)
    requires GoodConfig(c, step)
    ensures IsSpacing(c, step)
  {
    var other := HasSpacing(c);
    SpacingExactly(c, other);
  }

  /** Price of a level, counted from the reference. */
  function LevelPrice(c: SymbolConfig, step: nat, side: Side, level: nat): int {
    if side.Sell? then c.reference + level * step else c.reference - level * step
  }

  lemma QuoteShows(c: SymbolConfig, step: nat, side: Side, level: nat, id: nat)
    requires GoodConfig(c, step) && 1 <= level <= c.levels
    ensures var o := Quote(c, step, side, level, id);
      o == Order(id, side, o.limit, c.qtyPerLevel, 0, GTC) && o.Price() == LevelPrice(c, step, side, level)
  {
    QuoteIsSound(c, step, side, level, id);
    assert step * level == level * step;
  }

  lemma LevelsApart(c: SymbolConfig, step: nat, side: Side, a: nat, b: nat)
    requires step > 0 && a < b
    ensures LevelPrice(c, step, side, a) != LevelPrice(c, step, side, b)
  {
    MulMono(a + 1, b, step);
    assert (a + 1) * step == a * step + step;
  }

  lemma SameLevel(c: SymbolConfig, step: nat, side: Side, a: nat, b: nat)
    requires step > 0
    ensures LevelPrice(c, step, side, a) == LevelPrice(c, step, side, b) <==> a == b
  {
    if a < b {
      LevelsApart(c, step, side, a, b);
    } else if b < a {
      LevelsApart(c, step, side, b, a);
    }
  }

  /** The last quote of a ladder, and what is below it. */
  lemma LadderTop(c: SymbolConfig, step: nat, side: Side, first: nat, n: nat) returns (below: seq<Order>, last: Order)
    requires GoodConfig(c, step) && 0 < n <= c.levels
    ensures below == Ladder(c, step, side, first, n - 1) && Ladder(c, step, side, first, n) == below + [last]
    ensures last.qty == c.qtyPerLevel && last.Price() == LevelPrice(c, step, side, n)
  {
    below := Ladder(c, step, side, first, n - 1);
    last := Quote(c, step, side, n, first + 2 * (n - 1) + (if side.Sell? then 0 else 1));
    QuoteShows(c, step, side, n, last.id);
  }

  /** The first `n` levels hold the quantity per level each, and no other price does. */
  lemma {:induction false} LadderHolds(c: SymbolConfig, step: nat, side: Side, first: nat, n: nat, level: nat,
                                       price: int)
    requires GoodConfig(c, step) && n <= c.levels && 1 <= level && price == LevelPrice(c, step, side, level)
    ensures QtyAt(Ladder(c, step, side, first, n), price) == if level <= n then c.qtyPerLevel else 0
  {
    if n > 0 {
      var below, last := LadderTop(c, step, side, first, n);
      AcceptedSpacing(c, step);
      SameLevel(c, step, side, level, n);
      LadderHolds(c, step, side, first, n - 1, level, price);
      LadderEnds(below, last, price);
    }
  }

  lemma {:induction false} LadderTotal(c: SymbolConfig, step: nat, side: Side, first: nat, n: nat)
    requires GoodConfig(c, step) && n <= c.levels
    ensures TotalQty(Ladder(c, step, side, first, n)) == n * c.qtyPerLevel
  {
    if n > 0 {
      var below, last := LadderTop(c, step, side, first, n);
      LadderTotal(c, step, side, first, n - 1);
      LadderEnds(below, last, 0);
      OneMore(n, n - 1, c.qtyPerLevel);
    }
  }

  lemma OneMore(n: nat, less: nat, qty: nat)
    requires less == n - 1
    ensures less * qty + qty == n * qty
  {
  }

  lemma LadderEnds(queue: seq<Order>, last: Order, price: int)
    ensures QtyAt(queue + [last], price) == QtyAt(queue, price) + (if last.Price() == price then last.qty else 0)
    ensures TotalQty(queue + [last]) == TotalQty(queue) + last.qty
  {
    QtyAtConcat(queue, [last], price);
    TotalQtyConcat(queue, [last]);
  }

  /**
   * A quoted market shows, on both sides, the quantity per level at each of its levels, which are one spacing apart
   * from the reference price on; and nothing else.
   */
  ghost predicate ShowsLadder(m: Market) {
    && IsSpacing(m.config, m.step)
    && (forall side: Side, level: nat :: 1 <= level <= m.config.levels ==>
          QtyAt(m.book.Of(side), LevelPrice(m.config, m.step, side, level)) == m.config.qtyPerLevel)
    && (forall side: Side :: TotalQty(m.book.Of(side)) == m.config.levels * m.config.qtyPerLevel)
  }

  lemma QuotedMarketShows(m: Market)
    requires GoodConfig(m.config, m.step) && FullLadder(m)
    ensures ShowsLadder(m)
  {
    var first: nat :| m.book == LadderBook(m.config, m.step, first, m.config.levels);
    AcceptedSpacing(m.config, m.step);
    forall side: Side, level: nat | 1 <= level <= m.config.levels
      ensures QtyAt(m.book.Of(side), LevelPrice(m.config, m.step, side, level)) == m.config.qtyPerLevel
    {
      LadderHolds(m.config, m.step, side, first, m.config.levels, level, LevelPrice(m.config, m.step, side, level));
    }
    forall side: Side ensures TotalQty(m.book.Of(side)) == m.config.levels * m.config.qtyPerLevel {
      LadderTotal(m.config, m.step, side, first, m.config.levels);
    }
  }

  // ------------------------------------------------------------------ opening

  /** A configuration that can be quoted: positive numbers, and every level's price positive and in range. */
  ghost predicate Usable(c: SymbolConfig) {
    && c.symbol != 0 && c.reference > 0 && c.levels > 0 && c.qtyPerLevel > 0 && c.spacingBps > 0
    && exists step: nat ::
         IsSpacing(c, step) && step * c.levels < c.reference && c.reference + step * c.levels <= I64_MAX
  }

  lemma UsableExactly(c: SymbolConfig)
    ensures LevelStep(c).Ok? <==> Usable(c)
  {
    if c.reference > 0 {
      var step := HasSpacing(c);
      SpacingExactly(c, step);
      if Usable(c) {
        var other: nat :|
          IsSpacing(c, other) && other * c.levels < c.reference && c.reference + other * c.levels <= I64_MAX;
        SpacingExactly(c, other);
      }
    }
  }

  /** Each symbol is listed as it was configured. */
  ghost predicate AsConfigured(markets: map<Symbol, Market>, configs: seq<SymbolConfig>) {
    && (forall c :: c in configs ==> c.symbol in markets && markets[c.symbol].config == c)
    && forall s :: s in markets ==> markets[s].config in configs && markets[s].config.symbol == s
  }

  lemma {:induction false} ListedAsConfigured(configs: seq<SymbolConfig>)
    ensures Listed(configs).Ok? ==> AsConfigured(Listed(configs).value, configs)
  {
    if configs != [] {
      var init, last := configs[..|configs| - 1], configs[|configs| - 1];
      ListedAsConfigured(init);
      assert configs == init + [last];
    }
  }

  lemma SameListingConfigured(v: Venue, w: Venue, configs: seq<SymbolConfig>)
    requires AsConfigured(v.markets, configs) && SameListing(v, w)
    ensures AsConfigured(w.markets, configs)
  {
  }

  lemma OpenedListing(configs: seq<SymbolConfig>) returns (bare: Venue)
    requires NewVenue(configs).Ok?
    ensures Listed(configs).Ok? && bare.markets == Listed(configs).value && SameListing(bare, NewVenue(configs).value)
  {
    ListedAreGood(configs);
    bare := Venue(Listed(configs).value, QUOTE_ID_BASE);
    RefreshQuotesRestores(bare);
  }

  lemma OpensAsConfigured(configs: seq<SymbolConfig>)
    requires NewVenue(configs).Ok?
    ensures AsConfigured(NewVenue(configs).value.markets, configs)
  {
    ListedAsConfigured(configs);
    var bare := OpenedListing(configs);
    SameListingConfigured(bare, NewVenue(configs).value, configs);
  }

  /** A venue opens exactly on usable configurations of different symbols. */
  lemma OpensExactly(configs: seq<SymbolConfig>)
    ensures NewVenue(configs).Ok? <==>
      && (forall i :: 0 <= i < |configs| ==> Usable(configs[i]))
      && forall i, j :: 0 <= i < j < |configs| ==> configs[i].symbol != configs[j].symbol
  {
    ListedExactlyWhenValid(configs);
    forall i | 0 <= i < |configs| ensures LevelStep(configs[i]).Ok? <==> Usable(configs[i]) {
      UsableExactly(configs[i]);
    }
  }
}
