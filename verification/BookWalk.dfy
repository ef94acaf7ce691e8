/** Walking price levels from the best one outwards, taking as much as is
    wanted at each: the loop at the heart of both the limit order book's
    matching and the shadow interceptor's fill simulation. */
module BookWalk {
  import opened Common

  datatype Level = Level(price: real, avail: real)

  /** Quantity taken at each level when q is wanted in total. */
  function Take(q: real, levels: seq<Level>): (a: seq<real>)
    ensures |a| == |levels|
    decreases levels
  {
    if levels == [] then []
    else
      var t := Min(q, levels[0].avail);
      [t] + Take(q - t, levels[1..])
  }

  function Depth(levels: seq<Level>): real {
    if levels == [] then 0.0 else levels[0].avail + Depth(levels[1..])
  }

  function Cost(a: seq<real>, levels: seq<Level>): real
    requires |a| == |levels|
  {
    if a == [] then 0.0 else Value(a[0], levels[0].price) + Cost(a[1..], levels[1..])
  }

  ghost predicate NonNegative(levels: seq<Level>) {
    forall i :: 0 <= i < |levels| ==> levels[i].avail >= 0.0
  }

  ghost predicate Ascending(levels: seq<Level>) {
    forall i, j :: 0 <= i < j < |levels| ==> levels[i].price <= levels[j].price
  }

  ghost predicate Descending(levels: seq<Level>) {
    forall i, j :: 0 <= i < j < |levels| ==> levels[i].price >= levels[j].price
  }

  /** Some way of taking quantity out of the levels. */
  ghost predicate Feasible(a: seq<real>, levels: seq<Level>) {
    |a| == |levels| && forall i :: 0 <= i < |a| ==> 0.0 <= a[i] <= levels[i].avail
  }

  lemma {:induction false} DepthNonNegative(levels: seq<Level>)
    requires NonNegative(levels)
    ensures Depth(levels) >= 0.0
  {
    if levels != [] { DepthNonNegative(levels[1..]); }
  }

  lemma {:induction false} FeasibleSum(a: seq<real>, levels: seq<Level>)
    requires Feasible(a, levels)
    ensures 0.0 <= Sum(a) <= Depth(levels)
  {
    if a != [] { FeasibleSum(a[1..], levels[1..]); }
  }

  /** The walk takes min(q, depth), level by level within what is offered. */
  lemma {:induction false} TakeFills(q: real, levels: seq<Level>)
    requires q >= 0.0 && NonNegative(levels)
    ensures Feasible(Take(q, levels), levels)
    ensures Sum(Take(q, levels)) == Min(q, Depth(levels))
    decreases levels
  {
    if levels != [] {
      var t := Min(q, levels[0].avail);
      TakeFills(q - t, levels[1..]);
      DepthNonNegative(levels[1..]);
    }
  }

  lemma TakeStep(q: real, levels: seq<Level>, t: real, rest: seq<Level>)
    requires levels != [] && t == Min(q, levels[0].avail) && rest == levels[1..]
    ensures Cost(Take(q, levels), levels) == Value(t, levels[0].price) + Cost(Take(q - t, rest), rest)
  {
    hide Value;
    assert Take(q, levels)[1..] == Take(q - t, rest);
  }

  lemma CarryCost(g: real, a: real, c: real, p: real, x: real, greedyRest: real, otherRest: real)
    requires c >= 0.0 && p <= x && greedyRest + Value(c + g - a, x) <= otherRest
    ensures Value(g, x) + greedyRest + Value(c, p) <= Value(a, x) + otherRest
  {
    ProductMonotone(c, p, x);
    assert Value(c + g - a, x) == Value(c, x) + Value(g, x) - Value(a, x) by {
      assert (c + g - a) * x == c * x + g * x - a * x;
    }
    assert Value(c, p) <= Value(c, x);
  }

  /** A walk that is already ahead of another allocation by c units, bought at
      p or less, stays at least as cheap. */
  lemma {:induction false} WalkWithCarry(q: real, c: real, p: real, levels: seq<Level>, a: seq<real>)
    requires q >= 0.0 && c >= 0.0
    requires NonNegative(levels) && Ascending(levels)
    requires levels != [] ==> p <= levels[0].price
    requires Feasible(a, levels) && Sum(a) == q + c
    ensures Cost(Take(q, levels), levels) + Value(c, p) <= Cost(a, levels)
    decreases levels
  {
    hide Value;
    NoValue(p);
    if levels != [] {
      var x, rest, t := levels[0].price, levels[1..], Min(q, levels[0].avail);
      FeasibleSum(a[1..], rest);
      var ahead := c + t - a[0];
      WalkWithCarry(q - t, ahead, x, rest, a[1..]);
      TakeStep(q, levels, t, rest);
      CarryCost(t, a[0], c, p, x, Cost(Take(q - t, rest), rest), Cost(a[1..], rest));
    }
  }

  /** No other way of taking the same total quantity is cheaper. */
  lemma WalkIsCheapest(q: real, levels: seq<Level>, a: seq<real>)
    requires NonNegative(levels) && Ascending(levels)
    requires Feasible(a, levels) && Sum(a) == q
    ensures Cost(Take(q, levels), levels) <= Cost(a, levels)
  {
    FeasibleSum(a, levels);
    WalkWithCarry(q, 0.0, if levels == [] then 0.0 else levels[0].price, levels, a);
  }

  function Mirrored(levels: seq<Level>): (m: seq<Level>)
    ensures |m| == |levels|
    ensures forall i :: 0 <= i < |levels| ==> m[i] == Level(-levels[i].price, levels[i].avail)
  {
    if levels == [] then []
    else [Level(-levels[0].price, levels[0].avail)] + Mirrored(levels[1..])
  }

  lemma NegatedValue(qty: real, price: real)
    ensures Value(qty, -price) == -Value(qty, price)
  {
  }

  lemma {:induction false} MirroredWalk(q: real, levels: seq<Level>, a: seq<real>)
    requires |a| == |levels|
    ensures Take(q, Mirrored(levels)) == Take(q, levels)
    ensures Cost(a, Mirrored(levels)) == -Cost(a, levels)
    decreases levels
  {
    hide Value;
    if levels != [] {
      var t := Min(q, levels[0].avail);
      assert Mirrored(levels)[1..] == Mirrored(levels[1..]);
      MirroredWalk(q - t, levels[1..], a[1..]);
      NegatedValue(a[0], levels[0].price);
    }
  }

  /** Walking bids from the best price down, no other way of selling the same quantity brings more. */
  lemma WalkIsDearest(q: real, levels: seq<Level>, a: seq<real>)
    requires NonNegative(levels) && Descending(levels)
    requires Feasible(a, levels) && Sum(a) == q
    ensures Cost(Take(q, levels), levels) >= Cost(a, levels)
  {
    MirroredWalk(q, levels, a);
    MirroredWalk(q, levels, Take(q, levels));
    WalkIsCheapest(q, Mirrored(levels), a);
  }
}
