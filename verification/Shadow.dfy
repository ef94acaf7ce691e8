/** The shadow interceptor: a simulated fill against a snapshot of the live book. */
module Shadow {
  import opened Common
  import opened BookWalk

  datatype Order = Order(asset: string, side: Side, positionSize: real, entryPrice: real)

  /** Bids are quoted best (highest) first, asks best (lowest) first. */
  datatype Snapshot = Snapshot(bids: seq<Level>, asks: seq<Level>)

  datatype FillReason = EmptyBook | ShadowFill | LiquidityDeficit

  datatype FillResult = FillResult(
    clientOrderId: string, asset: string, side: Side, requestedQty: real, filledQty: real,
    fillPrice: real, slippagePct: real, wasCapped: bool, reason: FillReason)

  /** Almgren-Chriss impact of an order notional: percentage, and whether participation was capped. */
  type Impact = real -> (real, bool)

  function LevelsFor(book: Snapshot, side: Side): seq<Level> {
    if side == Long then book.asks else book.bids
  }

  function Vwap(cost: real, qty: real, entryPrice: real): real {
    if qty > 0.0 then cost / qty else entryPrice
  }

  function Result(order: Order, id: string, qty: real, cost: real, capped: bool, impact: Impact): FillResult
    requires order.entryPrice != 0.0
  {
    var vwap := Vwap(cost, qty, order.entryPrice);
    var (pct, impactCapped) := impact(Value(qty, vwap));
    var price := Value(vwap, 1.0 + (if order.side == Long then pct else -pct));
    FillResult(id, order.asset, order.side, order.positionSize, qty, price,
               Abs(price - order.entryPrice) / order.entryPrice, capped || impactCapped,
               if capped || impactCapped then LiquidityDeficit else ShadowFill)
  }

  lemma {:induction false} NothingMoreTaken(levels: seq<Level>)
    requires NonNegative(levels)
    ensures Sum(Take(0.0, levels)) == 0.0 && Cost(Take(0.0, levels), levels) == 0.0
  {
    hide Value;
    if levels != [] {
      NothingMoreTaken(levels[1..]);
      TakeStep(0.0, levels, 0.0, levels[1..]);
      NoValue(levels[0].price);
    }
  }

  class ShadowInterceptor {
    var shadowFills: seq<FillResult>

    constructor ()
      ensures shadowFills == []
    {
      shadowFills := [];
    }

    /** The level loop: quantity and cost are those of the walk. */
    static method WalkLevels(requested: real, levels: seq<Level>) returns (filled: real, cost: real, remaining: real)
      requires requested >= 0.0 && NonNegative(levels)
      ensures filled == Sum(Take(requested, levels)) && cost == Cost(Take(requested, levels), levels)
      ensures remaining == requested - filled
    {
      hide Value, Take, Cost, Sum;
      filled, cost, remaining := 0.0, 0.0, requested;
      var i := 0;
      while i < |levels|
        invariant 0 <= i <= |levels| && remaining == requested - filled && remaining >= 0.0
        invariant Sum(Take(requested, levels)) == filled + Sum(Take(remaining, levels[i..]))
        invariant Cost(Take(requested, levels), levels) == cost + Cost(Take(remaining, levels[i..]), levels[i..])
      {
        var take := Min(remaining, levels[i].avail);
        TakeStep(remaining, levels[i..], take, levels[i + 1..]);
        TakeStepSum(remaining, levels[i..], take, levels[i + 1..]);
        cost := cost + Value(take, levels[i].price);
        filled := filled + take;
        remaining := remaining - take;
        i := i + 1;
        if remaining <= 0.0 {
          NothingMoreTaken(levels[i..]);
          return;
        }
      }
      NothingTaken(remaining);
    }

    static lemma NothingTaken(q: real)
      ensures Sum(Take(q, [])) == 0.0 && Cost(Take(q, []), []) == 0.0
    {
    }

    static lemma TakeStepSum(q: real, levels: seq<Level>, t: real, rest: seq<Level>)
      requires levels != [] && t == Min(q, levels[0].avail) && rest == levels[1..]
      ensures Sum(Take(q, levels)) == t + Sum(Take(q - t, rest))
    {
    }

    /** Every interception is recorded, and never fills beyond the depth on offer. */
    method ExecuteShadowFill(order: Order, clientOrderId: string, book: Snapshot, impact: Impact)
      returns (r: FillResult)
      requires order.positionSize >= 0.0 && order.entryPrice != 0.0 && NonNegative(LevelsFor(book, order.side))
      modifies this
      ensures shadowFills == old(shadowFills) + [r]
      ensures r == var levels := if order.side == Long then book.asks else book.bids;
        if levels == [] then
          FillResult(clientOrderId, order.asset, order.side, order.positionSize, 0.0, order.entryPrice, 0.0, true,
                     EmptyBook)
        else
          Result(order, clientOrderId, Sum(Take(order.positionSize, levels)),
                 Cost(Take(order.positionSize, levels), levels), order.positionSize > Depth(levels), impact)
    {
      hide Take, Cost, Sum, Depth, Result;
      var levels := LevelsFor(book, order.side);
      if levels == [] {
        r := FillResult(clientOrderId, order.asset, order.side, order.positionSize, 0.0, order.entryPrice, 0.0, true,
                        EmptyBook);
      } else {
        var filled, cost, remaining := WalkLevels(order.positionSize, levels);
        TakeFills(order.positionSize, levels);
        r := Result(order, clientOrderId, filled, cost, remaining > 0.0, impact);
      }
      shadowFills := shadowFills + [r];
    }
  }

  /** The shadow walk fills min(requested, depth) at the best total any allocation
      of that quantity over the quoted levels could have. */
  lemma ShadowFillIsBest(requested: real, levels: seq<Level>, side: Side, alloc: seq<real>)
    requires requested >= 0.0 && NonNegative(levels)
    requires if side == Long then Ascending(levels) else Descending(levels)
    requires Feasible(alloc, levels) && Sum(alloc) == Sum(Take(requested, levels))
    ensures Sum(alloc) == Min(requested, Depth(levels))
    ensures side == Long ==> Cost(Take(requested, levels), levels) <= Cost(alloc, levels)
    ensures side == Short ==> Cost(Take(requested, levels), levels) >= Cost(alloc, levels)
  {
    hide Cost, Sum, Depth;
    TakeFills(requested, levels);
    assert Take(Sum(alloc), levels) == Take(requested, levels) by { TakeCapped(requested, levels); }
    if side == Long {
      WalkIsCheapest(Sum(alloc), levels, alloc);
    } else {
      WalkIsDearest(Sum(alloc), levels, alloc);
    }
  }

  /** Asking for more than the depth takes exactly the depth. */
  lemma {:induction false} TakeCapped(q: real, levels: seq<Level>)
    requires q >= 0.0 && NonNegative(levels)
    ensures Take(Min(q, Depth(levels)), levels) == Take(q, levels)
    decreases levels
  {
    if levels != [] {
      DepthNonNegative(levels[1..]);
      TakeCapped(q - Min(q, levels[0].avail), levels[1..]);
      var d := Min(q, Depth(levels));
      assert d - Min(d, levels[0].avail) == Min(q - Min(q, levels[0].avail), Depth(levels[1..]));
    }
  }

  /** The average price never lies outside the prices of the levels walked. */
  lemma {:induction false} CostWithinPrices(q: real, levels: seq<Level>, lo: real, hi: real)
    requires q >= 0.0 && NonNegative(levels)
    requires forall i :: 0 <= i < |levels| ==> lo <= levels[i].price <= hi
    ensures Value(Sum(Take(q, levels)), lo) <= Cost(Take(q, levels), levels) <= Value(Sum(Take(q, levels)), hi)
    decreases levels
  {
    hide Value, Take, Cost, Sum;
    if levels == [] {
      ShadowInterceptor.NothingTaken(q);
      NoValue(lo);
      NoValue(hi);
    } else {
      var t := Min(q, levels[0].avail);
      CostWithinPrices(q - t, levels[1..], lo, hi);
      TakeStep(q, levels, t, levels[1..]);
      ShadowInterceptor.TakeStepSum(q, levels, t, levels[1..]);
      ValueSplit(t, Sum(Take(q - t, levels[1..])), lo, levels[0].price);
      ValueSplit(t, Sum(Take(q - t, levels[1..])), levels[0].price, hi);
      ValueSplit(t, Sum(Take(q - t, levels[1..])), hi, hi);
    }
  }

  lemma ValueSplit(t: real, rest: real, lo: real, price: real)
    requires t >= 0.0 && lo <= price
    ensures Value(t + rest, lo) == Value(t, lo) + Value(rest, lo)
    ensures Value(t, lo) <= Value(t, price)
  {
    ProductMonotone(t, lo, price);
    assert (t + rest) * lo == t * lo + rest * lo;
  }

  lemma VwapWithinPrices(q: real, levels: seq<Level>, lo: real, hi: real, entry: real)
    requires q > 0.0 && NonNegative(levels) && Depth(levels) > 0.0
    requires forall i :: 0 <= i < |levels| ==> lo <= levels[i].price <= hi
    ensures Sum(Take(q, levels)) > 0.0
    ensures lo <= Vwap(Cost(Take(q, levels), levels), Sum(Take(q, levels)), entry) <= hi
  {
    hide Take, Cost, Sum, Depth;
    TakeFills(q, levels);
    CostWithinPrices(q, levels, lo, hi);
    var qty, cost := Sum(Take(q, levels)), Cost(Take(q, levels), levels);
    AverageBounds(cost, qty, lo, hi);
  }

  lemma AverageBounds(cost: real, qty: real, lo: real, hi: real)
    requires qty > 0.0 && Value(qty, lo) <= cost <= Value(qty, hi)
    ensures lo <= cost / qty <= hi
  {
    var avg := cost / qty;
    assert avg * qty == cost;
    assert avg < lo ==> avg * qty < lo * qty;
    assert avg > hi ==> avg * qty > hi * qty;
  }

  /** A simulated fill in figures: the price is the walk's average, moved against the order by
      the impact of what was filled; a quantity of nothing is priced at the entry. The
      slippage is the distance to the entry as a share of it, and the fill is called
      short of liquidity exactly when the depth or the impact model capped it. */
  lemma ShadowFillInFigures(order: Order, id: string, qty: real, cost: real, capped: bool, impact: Impact, avg: real)
    requires order.entryPrice != 0.0
    requires if qty > 0.0 then Value(avg, qty) == cost else avg == order.entryPrice
    ensures var r, moved := Result(order, id, qty, cost, capped, impact), impact(Value(qty, avg));
      && r.filledQty == qty && r.requestedQty == order.positionSize && r.side == order.side
      && r.fillPrice == avg + (if order.side == Long then Value(avg, moved.0) else -Value(avg, moved.0))
      && Value(r.slippagePct, order.entryPrice) == Abs(r.fillPrice - order.entryPrice)
      && (r.wasCapped <==> capped || moved.1)
      && r.reason == if capped || moved.1 then LiquidityDeficit else ShadowFill
  {
    if qty > 0.0 {
      BackToWhole(cost, qty);
      SameAverage(avg, cost / qty, qty);
    }
    var r := Result(order, id, qty, cost, capped, impact);
    hide Value;
    assert Vwap(cost, qty, order.entryPrice) == avg;
    Moved(avg, impact(Value(qty, avg)).0);
    BackToWhole(Abs(r.fillPrice - order.entryPrice), order.entryPrice);
  }

  lemma Moved(avg: real, pct: real)
    ensures Value(avg, 1.0 + pct) == avg + Value(avg, pct) && Value(avg, 1.0 + -pct) == avg - Value(avg, pct)
  {
    assert avg * (1.0 + pct) == avg + avg * pct && avg * (1.0 + -pct) == avg - avg * pct;
  }

  lemma SameAverage(a: real, b: real, qty: real)
    requires qty > 0.0 && Value(a, qty) == Value(b, qty)
    ensures a == b
  {
    assert (a - b) * qty == a * qty - b * qty;
  }
}
