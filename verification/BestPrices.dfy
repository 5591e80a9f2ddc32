/** The best of a set of prices: what the first or last key of an ordered map is. */
module BestPrices {
  import opened Types
  import opened BookSpec

  ghost predicate IsBest(side: Side, prices: set<int>, p: int) {
    p in prices && forall q :: q in prices ==> q == p || Before(side, p, q)
  }

  lemma {:induction false} HasBest(side: Side, prices: set<int>)
    requires prices != {}
    ensures exists p :: IsBest(side, prices, p)
    decreases |prices|
  {
    var x := Pick(prices);
    var others := prices - {x};
    if others == {} {
      assert prices == {x};
      assert IsBest(side, prices, x);
    } else {
      HasBest(side, others);
      var p :| IsBest(side, others, p);
      var best := if Before(side, x, p) then x else p;
      forall q | q in prices ensures q == best || Before(side, best, q) {
        assert q == x || q in others;
      }
      assert IsBest(side, prices, best);
    }
  }

  /** First key of an ordered map for asks, last key for bids. */
  function BestPrice(side: Side, prices: set<int>): (p: int)
    requires prices != {}
    ensures IsBest(side, prices, p)
  {
    HasBest(side, prices);
    assert exists p :: p in prices && forall q :: q in prices ==> q == p || Before(side, p, q) by {
      var p :| IsBest(side, prices, p);
    }
    var p :| p in prices && forall q :: q in prices ==> q == p || Before(side, p, q);
    p
  }

  lemma SameBest(side: Side, prices: set<int>, p: int)
    requires p in prices && forall q :: q in prices ==> q == p || Before(side, p, q)
    ensures BestPrice(side, prices) == p
  {
  }
}
