/** What one child order's fills do to its parent, its position and the P&L. */
module DeskLaws {
  import opened Types
  import opened DivMod
  import opened BookSpec
  import opened VenueLaws
  import opened ParentOrders
  import opened Accounting
  import opened AccountingLaws
  import opened EngineSpec

  // ------------------------------------------------------------------- value

  /** Marked P&L of a position, exactly: what it realized and what its open quantity would bring at `mark`. */
  function Marked(p: Holding, mark: int): int {
    p.realizedPnl + p.quantity * mark - p.costBasis
  }

  /** What a fill costs against the mark: its quantity times how much worse its price is. */
  function Slip(side: Side, price: int, quantity: int, mark: int): int {
    quantity * (side.Direction() * (price - mark))
  }

  /** A fill lowers the marked P&L by exactly its slippage. */
  lemma FillCostsItsSlippage(p: Holding, t: Trade, mark: int)
    requires Apply(p, t).Some?
    ensures Marked(Apply(p, t).value, mark) == Marked(p, mark) - Slip(t.side, t.price, t.qty, mark)
  {
    FillIsExactCash(p, t);
    SlippageIdentity(t.side.Direction(), t.qty, t.price, mark, p.quantity);
  }

  lemma SlippageIdentity(d: int, qty: int, price: int, mark: int, held: int)
    requires d == 1 || d == -1
    ensures (held + d * qty) * mark + (-d) * qty * price == held * mark - qty * (d * (price - mark))
  {
  }

  /** A fair price never makes slippage negative. */
  lemma FairSlips(side: Side, price: int, quantity: nat, mark: int)
    requires Fair(side.Opposite(), price, mark)
    ensures 0 <= Slip(side, price, quantity, mark) <= quantity * mark
  {
    var worse := side.Direction() * (price - mark);
    MulMono(0, worse, quantity);
    MulMono(worse, mark, quantity);
  }

  /** A position whose average cost is a price no better than the mark, and which has never gained at the mark. */
  ghost predicate SoundHolding(p: Holding, mark: int) {
    CostInRange(p, 1, I64_MAX) && Marked(p, mark) <= 0 && WorseThan(p.quantity, p.costBasis, mark)
  }

  /** A long position cost at least the mark, a short one brought in at most the mark. */
  predicate WorseThan(quantity: int, cost: int, mark: int) {
    quantity * mark <= cost
  }

  lemma WorseByRange(quantity: int, cost: int, mark: nat, high: nat)
    requires RangeHolds(quantity, cost, 1, high)
    ensures WorseThan(quantity, cost, mark) <==>
      if quantity >= 0 then RangeHolds(quantity, cost, mark, high) else RangeHolds(quantity, cost, 1, mark)
  {
    assert quantity * mark == mark * quantity;
  }

  /** What a fill no better than the mark leaves open is no better than the mark. */
  lemma FillStaysWorse(p: Holding, t: Trade, mark: nat)
    requires CostInRange(p, 1, I64_MAX) && WorseThan(p.quantity, p.costBasis, mark)
    requires mark > 0 && 0 < t.price && (if t.side.Buy? then mark <= t.price else t.price <= mark)
    ensures WorseThan(p.quantity + t.side.Direction() * t.qty, CostAfter(p, t), mark)
  {
    var low, high := if t.side.Buy? then mark else 1, if t.side.Buy? then I64_MAX else mark;
    var q := p.quantity + t.side.Direction() * t.qty;
    FillKeepsRange(p, t, 1, I64_MAX);
    WorseByRange(p.quantity, p.costBasis, mark, I64_MAX);
    WorseByRange(q, CostAfter(p, t), mark, I64_MAX);
    if p.quantity == 0 || Signum(p.quantity) == t.side.Direction() {
      FlatRange(p, low, high);
      AddKeepsRange(p, t, low, high);
    } else if t.qty < Abs(p.quantity) {
      if p.quantity > 0 {
        PartialCloseKeepsRange(p, t, mark, I64_MAX);
      } else {
        PartialCloseKeepsRange(p, t, 1, mark);
      }
    } else {
      FlipKeepsRange(p, t, low, high);
    }
  }

  lemma FlatRange(p: Holding, low: nat, high: nat)
    requires CostInRange(p, 1, I64_MAX)
    ensures p.quantity == 0 ==> CostInRange(p, low, high)
  {
  }

  lemma FillKeepsSound(p: Holding, t: Trade, mark: int)
    requires SoundHolding(p, mark) && Apply(p, t).Some? && Fair(t.side.Opposite(), t.price, mark)
    ensures SoundHolding(Apply(p, t).value, mark)
  {
    FillKeepsRange(p, t, 1, I64_MAX);
    FillStaysWorse(p, t, mark);
    FillCostsItsSlippage(p, t, mark);
    FairSlips(t.side, t.price, t.qty, mark);
  }

  lemma FlatIsSound(mark: int)
    ensures SoundHolding(FLAT, mark) && Marked(FLAT, mark) == 0
  {
  }

  /** Slippage of a tick's fills in one symbol. */
  function SlippageIn(fills: seq<FillReport>, s: nat, mark: int): int {
    if fills == [] then 0
    else
      var last := fills[|fills| - 1];
      SlippageIn(fills[..|fills| - 1], s, mark)
        + (if last.symbol == s then Slip(last.side, last.price, last.quantity, mark) else 0)
  }

  // ----------------------------------------------------------- filling a desk

  /** Fills of a `side` taker, all worse for it than the mark. */
  ghost predicate FairFills(fills: seq<Fill>, side: Side, mark: int) {
    forall f :: f in fills ==> FairFill(f, side, mark)
  }

  lemma {:induction false} FilledQtyLast(fills: seq<Fill>)
    requires fills != []
    ensures FilledQty(fills) == FilledQty(fills[..|fills| - 1]) + fills[|fills| - 1].qty
  {
    if |fills| == 1 {
      assert fills[..0] == [] && fills[1..] == [];
    } else {
      FilledQtyLast(fills[1..]);
      assert fills[1..][..|fills| - 2] == fills[..|fills| - 1][1..];
    }
  }

  /** The same order, but for what its children filled. */
  ghost predicate SameButFills(p: Parent, q: Parent) {
    q == p.(filled := q.filled, notional := q.notional, children := q.children)
  }

  lemma OneFillKeepsLedger(d: Desk, id: nat, childId: nat, now: U64, fill: Fill, open: nat)
    requires Ledger(d.parent) && Awaits(d.parent, open) && fill.qty <= open
    ensures var r := TakeFill(d, id, childId, now, fill);
      && Ledger(r.parent) && SameButFills(d.parent, r.parent)
      && d.parent.filled <= r.parent.filled <= d.parent.filled + fill.qty
      && Awaits(r.parent, open - fill.qty)
  {
    FillKeepsLedger(d.parent, fill.price, fill.qty, open);
  }

  /** Whatever the accounting refused, the order's ledger stays right and it never fills more than it sent. */
  lemma {:induction false} FillsKeepLedger(d: Desk, id: nat, childId: nat, now: U64, fills: seq<Fill>, open: nat)
    requires Ledger(d.parent) && Awaits(d.parent, open) && FilledQty(fills) <= open
    ensures var r := TakeFills(d, id, childId, now, fills);
      && Ledger(r.parent) && SameButFills(d.parent, r.parent)
      && d.parent.filled <= r.parent.filled <= d.parent.filled + FilledQty(fills)
      && Awaits(r.parent, open - FilledQty(fills))
  {
    if fills != [] {
      var init, last := fills[..|fills| - 1], fills[|fills| - 1];
      FilledQtyLast(fills);
      FillsKeepLedger(d, id, childId, now, init, open);
      OneFillKeepsLedger(TakeFills(d, id, childId, now, init), id, childId, now, last, open - FilledQty(init));
    }
  }

  /** A quantity as it moves a position: up for a buyer, down for a seller. */
  function Signed(side: Side, quantity: int): int {
    if side.Buy? then quantity else 0 - quantity
  }

  /** `r` is `d` after fills: the order's own position moved by what it filled, and no other did. */
  ghost predicate Moved(d: Desk, r: Desk) {
    && SameButFills(d.parent, r.parent)
    && HoldingOf(r.positions, d.parent.symbol).quantity
       == HoldingOf(d.positions, d.parent.symbol).quantity + Signed(d.parent.side, r.parent.filled - d.parent.filled)
    && (forall s :: s != d.parent.symbol ==> HoldingOf(r.positions, s) == HoldingOf(d.positions, s))
    && d.positions.Keys <= r.positions.Keys <= d.positions.Keys + {d.parent.symbol}
  }

  lemma OneFillMoves(d: Desk, id: nat, childId: nat, now: U64, fill: Fill)
    ensures Moved(d, TakeFill(d, id, childId, now, fill))
  {
  }

  lemma {:induction false} FillsMovePosition(d: Desk, id: nat, childId: nat, now: U64, fills: seq<Fill>)
    ensures Moved(d, TakeFills(d, id, childId, now, fills))
  {
    if fills != [] {
      var earlier := TakeFills(d, id, childId, now, fills[..|fills| - 1]);
      FillsMovePosition(d, id, childId, now, fills[..|fills| - 1]);
      if earlier.failure.None? {
        var r := TakeFill(earlier, id, childId, now, fills[|fills| - 1]);
        OneFillMoves(earlier, id, childId, now, fills[|fills| - 1]);
        MovedTwice(d, earlier, r);
      }
    }
  }

  lemma MovedTwice(a: Desk, b: Desk, c: Desk)
    requires Moved(a, b) && Moved(b, c)
    ensures Moved(a, c)
  {
  }

  /** Marked P&L falls by exactly the slippage of the fills reported, and the position stays sound. */
  lemma {:induction false} FillsCostSlippage(d: Desk, id: nat, childId: nat, now: U64, fills: seq<Fill>, mark: int)
    requires FairFills(fills, d.parent.side, mark) && SoundHolding(HoldingOf(d.positions, d.parent.symbol), mark)
    ensures var s, r := d.parent.symbol, TakeFills(d, id, childId, now, fills);
      && r.parent.symbol == s && r.parent.side == d.parent.side
      && SoundHolding(HoldingOf(r.positions, s), mark)
      && Marked(HoldingOf(r.positions, s), mark) + SlippageIn(r.fills, s, mark)
         == Marked(HoldingOf(d.positions, s), mark) + SlippageIn(d.fills, s, mark)
  {
    if fills != [] {
      var init, last := fills[..|fills| - 1], fills[|fills| - 1];
      FillsCostSlippage(d, id, childId, now, init, mark);
      var earlier := TakeFills(d, id, childId, now, init);
      if earlier.failure.None? {
        OneFillCosts(earlier, id, childId, now, last, mark);
      }
    }
  }

  lemma OneFillCosts(d: Desk, id: nat, childId: nat, now: U64, fill: Fill, mark: int)
    requires FairFill(fill, d.parent.side, mark) && SoundHolding(HoldingOf(d.positions, d.parent.symbol), mark)
    ensures var s, r := d.parent.symbol, TakeFill(d, id, childId, now, fill);
      && r.parent.symbol == s && r.parent.side == d.parent.side
      && SoundHolding(HoldingOf(r.positions, s), mark)
      && Marked(HoldingOf(r.positions, s), mark) + SlippageIn(r.fills, s, mark)
         == Marked(HoldingOf(d.positions, s), mark) + SlippageIn(d.fills, s, mark)
  {
    var s := d.parent.symbol;
    var p, t := HoldingOf(d.positions, s), Accounting.Trade(d.parent.side, fill.price, fill.qty);
    var r := TakeFill(d, id, childId, now, fill);
    if Apply(p, t).Some? {
      FillKeepsSound(p, t, mark);
      FillCostsItsSlippage(p, t, mark);
      assert r.fills[..|d.fills|] == d.fills;
    }
  }

  /** A reported fill, worse for the trader than the mark. */
  ghost predicate FairReport(f: FillReport, mark: int) {
    f.quantity > 0 && Fair(f.side.Opposite(), f.price, mark)
  }

  /** The report grows by fair fills of this order alone. */
  ghost predicate ReportsOf(before: seq<FillReport>, after: seq<FillReport>, id: nat, s: nat, side: Side, mark: int) {
    && before <= after
    && forall i :: |before| <= i < |after| ==>
         after[i].parentId == id && after[i].symbol == s && after[i].side == side && FairReport(after[i], mark)
  }

  lemma OneFillIsReported(d: Desk, id: nat, childId: nat, now: U64, fill: Fill, mark: int)
    requires FairFill(fill, d.parent.side, mark)
    ensures var r := TakeFill(d, id, childId, now, fill);
      && r.parent.symbol == d.parent.symbol && r.parent.side == d.parent.side
      && ReportsOf(d.fills, r.fills, id, d.parent.symbol, d.parent.side, mark)
  {
  }

  lemma ReportsChain(a: seq<FillReport>, b: seq<FillReport>, c: seq<FillReport>, id: nat, s: nat, side: Side, mark: int)
    requires ReportsOf(a, b, id, s, side, mark) && ReportsOf(b, c, id, s, side, mark)
    ensures ReportsOf(a, c, id, s, side, mark)
  {
    forall i | |a| <= i < |c| ensures
      c[i].parentId == id && c[i].symbol == s && c[i].side == side && FairReport(c[i], mark)
    {
      assert i < |b| ==> b[i] == c[i];
    }
  }

  lemma {:induction false} FillsAreReported(d: Desk, id: nat, childId: nat, now: U64, fills: seq<Fill>, mark: int)
    requires FairFills(fills, d.parent.side, mark)
    ensures var r := TakeFills(d, id, childId, now, fills);
      && r.parent.symbol == d.parent.symbol && r.parent.side == d.parent.side
      && ReportsOf(d.fills, r.fills, id, d.parent.symbol, d.parent.side, mark)
  {
    if fills != [] {
      var init, last := fills[..|fills| - 1], fills[|fills| - 1];
      FillsAreReported(d, id, childId, now, init, mark);
      var earlier := TakeFills(d, id, childId, now, init);
      if earlier.failure.None? {
        OneFillIsReported(earlier, id, childId, now, last, mark);
        ReportsChain(d.fills, earlier.fills, TakeFill(earlier, id, childId, now, last).fills, id, d.parent.symbol,
                     d.parent.side, mark);
      }
    }
  }
}
