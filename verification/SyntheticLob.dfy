/** The in-memory book as the simulator runs it: mutable orders, two lists, a
    matching loop that fills resting orders in place. Clock readings arrive as
    arguments and the random generator as the stream of numbers it would give. */
module SyntheticLob {
  import opened Common
  import opened OrderBook

  class LimitOrder {
    const orderId: string
    const side: string
    const price: real
    const qty: real
    const timestamp: real
    const agentId: string
    const arrival: real
    var filledQty: real
    var priority: real

    /** Missing timestamps are stamped with the creation time `now`. */
    constructor (orderId: string, side: string, price: real, qty: real, timestamp: real, agentId: string,
                 filledQty: real, arrival: real, priority: real, now: real)
      ensures View() == Entry(orderId, side, price, qty, Stamp(timestamp, now), agentId, filledQty,
                              if arrival == 0.0 then Stamp(timestamp, now) else arrival,
                              if priority == 0.0 then Stamp(timestamp, now) else priority)
    {
      this.orderId, this.side, this.price, this.qty := orderId, side, price, qty;
      this.timestamp := if timestamp > 0.0 then timestamp else now;
      this.agentId, this.filledQty := agentId, filledQty;
      this.arrival := if arrival != 0.0 then arrival else if timestamp > 0.0 then timestamp else now;
      this.priority := if priority != 0.0 then priority else if timestamp > 0.0 then timestamp else now;
    }

    static function Stamp(timestamp: real, now: real): real { if timestamp > 0.0 then timestamp else now }

    function View(): Entry
      reads this
    {
      Entry(orderId, side, price, qty, timestamp, agentId, filledQty, arrival, priority)
    }
  }

  ghost function Views(s: seq<LimitOrder>): (v: seq<Entry>)
    reads s
    ensures |v| == |s|
    ensures forall i :: 0 <= i < |s| ==> v[i] == s[i].View()
  {
    seq(|s|, i requires 0 <= i < |s| reads s => s[i].View())
  }

  /** No object twice. */
  ghost predicate Distinct(s: seq<LimitOrder>) {
    forall i, j :: 0 <= i < j < |s| ==> s[i] != s[j]
  }

  lemma DistinctParts(s: seq<LimitOrder>, t: seq<LimitOrder>)
    requires Distinct(s + t)
    ensures Distinct(s) && Distinct(t)
    ensures forall i, j :: 0 <= i < |s| && 0 <= j < |t| ==> s[i] != t[j]
  {
    forall i, j | 0 <= i < |s| && 0 <= j < |t| ensures s[i] != t[j] { assert (s + t)[i] != (s + t)[|s| + j]; }
    forall i | 0 <= i < |s| ensures s[i] == (s + t)[i] {}
    forall i | 0 <= i < |t| ensures t[i] == (s + t)[|s| + i] {}
  }

  lemma DistinctAfterSort(s: seq<LimitOrder>, t: seq<LimitOrder>)
    requires multiset(s) == multiset(t) && Distinct(t)
    ensures Distinct(s) && forall o :: o in s <==> o in t
  {
    forall o ensures o in s <==> o in t { assert o in multiset(s) <==> o in multiset(t); }
    forall o: LimitOrder ensures multiset(t)[o] <= 1 { OccursOnce(t, o); }
    forall i, j | 0 <= i < j < |s| ensures s[i] != s[j] {
      assert s == s[..j] + s[j..];
      assert s[i] in s[..j] && s[j] in s[j..];
      assert multiset(s)[s[j]] <= 1;
    }
  }

  lemma {:induction false} OccursOnce(t: seq<LimitOrder>, o: LimitOrder)
    requires Distinct(t)
    ensures multiset(t)[o] <= 1
  {
    if t != [] {
      OccursOnce(t[1..], o);
      assert t == [t[0]] + t[1..];
      if t[0] == o { assert o !in t[1..]; }
    }
  }

  lemma DistinctJoin(s: seq<LimitOrder>, t: seq<LimitOrder>)
    requires Distinct(s) && Distinct(t) && forall o :: !(o in s && o in t)
    ensures Distinct(s + t)
  {
    forall i, j | 0 <= i < j < |s + t| ensures (s + t)[i] != (s + t)[j] {
      if i < |s| <= j { assert (s + t)[i] in s && (s + t)[j] in t; }
    }
  }

  lemma {:induction false} InsertionPoint(t: seq<Entry>, x: Entry, before: (Entry, Entry) -> bool, n: nat)
    requires n <= |t|
    requires forall i :: n <= i < |t| ==> before(x, t[i])
    requires n > 0 ==> !before(x, t[n - 1])
    ensures Insert(t, x, before) == t[..n] + [x] + t[n..]
  {
    if t != [] && before(x, t[|t| - 1]) {
      InsertionPoint(t[..|t| - 1], x, before, n);
    }
  }

  method InsertOrder(s: seq<LimitOrder>, x: LimitOrder, side: string) returns (r: seq<LimitOrder>)
    ensures Views(r) == Insert(Views(s), x.View(), AheadOn(side))
    ensures multiset(r) == multiset(s) + multiset{x}
  {
    var n, before := |s|, AheadOn(side);
    while n > 0 && before(x.View(), s[n - 1].View())
      invariant 0 <= n <= |s|
      invariant forall j :: n <= j < |s| ==> before(x.View(), Views(s)[j])
    {
      n := n - 1;
    }
    r := s[..n] + [x] + s[n..];
    InsertionPoint(Views(s), x.View(), before, n);
    PutIn(s, x, n);
  }

  lemma PutIn(s: seq<LimitOrder>, x: LimitOrder, n: nat)
    requires n <= |s|
    ensures Views(s[..n] + [x] + s[n..]) == Views(s)[..n] + [x.View()] + Views(s)[n..]
    ensures multiset(s[..n] + [x] + s[n..]) == multiset(s) + multiset{x}
  {
    assert s == s[..n] + s[n..];
  }

  /** Stands in for the list's stable sort by (price, priority) key. */
  method SortOrders(s: seq<LimitOrder>, side: string) returns (r: seq<LimitOrder>)
    ensures Views(r) == StableSort(Views(s), AheadOn(side))
    ensures multiset(r) == multiset(s)
  {
    hide StableSort, Insert, AheadOn;
    r := [];
    var i := 0;
    SortNothing(AheadOn(side));
    assert Views(s)[..0] == [] && s[..0] == [];
    while i < |s|
      invariant 0 <= i <= |s|
      invariant Views(r) == StableSort(Views(s)[..i], AheadOn(side))
      invariant multiset(r) == multiset(s[..i])
    {
      r := InsertOrder(r, s[i], side);
      SortStep(Views(s), i, AheadOn(side));
      assert s[..i + 1] == s[..i] + [s[i]];
      i := i + 1;
    }
    assert Views(s)[..i] == Views(s) && s[..i] == s;
  }

  lemma SortStep(t: seq<Entry>, i: nat, before: (Entry, Entry) -> bool)
    requires i < |t|
    ensures StableSort(t[..i + 1], before) == Insert(StableSort(t[..i], before), t[i], before)
  {
    hide Insert;
    assert t[..i + 1][..i] == t[..i];
  }

  lemma SortNothing(before: (Entry, Entry) -> bool)
    ensures StableSort([], before) == []
  {
  }

  /** list.remove under dataclass equality. */
  method RemoveEqual(s: seq<LimitOrder>, order: LimitOrder) returns (r: seq<LimitOrder>)
    ensures Views(r) == RemoveFirst(Views(s), order.View())
    ensures Distinct(s) ==> Distinct(r)
    ensures forall o :: o in r ==> o in s
  {
    hide RemoveFirst, Distinct;
    var i := 0;
    while i < |s| && s[i].View() != order.View()
      invariant 0 <= i <= |s|
      invariant forall j :: 0 <= j < i ==> Views(s)[j] != order.View()
    {
      i := i + 1;
    }
    RemoveAt(Views(s), order.View(), i);
    if i == |s| {
      r := s;
    } else {
      r := s[..i] + s[i + 1..];
      CutOut(s, i);
    }
  }

  lemma CutOut(s: seq<LimitOrder>, i: nat)
    requires i < |s|
    ensures Views(s[..i] + s[i + 1..]) == Views(s)[..i] + Views(s)[i + 1..]
    ensures Distinct(s) ==> Distinct(s[..i] + s[i + 1..])
    ensures forall o :: o in s[..i] + s[i + 1..] ==> o in s
  {
    var r := s[..i] + s[i + 1..];
    assert forall j :: 0 <= j < |r| ==> r[j] == s[if j < i then j else j + 1];
  }

  lemma {:induction false} RemoveAt(t: seq<Entry>, o: Entry, i: nat)
    requires i <= |t| && (forall j :: 0 <= j < i ==> t[j] != o) && (i < |t| ==> t[i] == o)
    ensures RemoveFirst(t, o) == if i == |t| then t else t[..i] + t[i + 1..]
  {
    if 0 < i { RemoveAt(t[1..], o, i - 1); }
  }

  method SeedSide(id1: string, id2: string, id3: string, side: string, mid: real, sign: real, now: real)
    returns (s: seq<LimitOrder>)
    requires now > 0.0
    ensures Distinct(s) && fresh(s)
    ensures Views(s) == [Seed(id1, side, mid + sign * 1.0, 2.5, now), Seed(id2, side, mid + sign * 5.0, 5.0, now),
                         Seed(id3, side, mid + sign * 10.0, 10.0, now)]
  {
    var o1 := new LimitOrder(id1, side, mid + sign * 1.0, 2.5, now, "mm_init", 0.0, 0.0, 0.0, now);
    var o2 := new LimitOrder(id2, side, mid + sign * 5.0, 5.0, now, "mm_init", 0.0, 0.0, 0.0, now);
    var o3 := new LimitOrder(id3, side, mid + sign * 10.0, 10.0, now, "mm_init", 0.0, 0.0, 0.0, now);
    s := [o1, o2, o3];
  }

  class SyntheticLOB {
    var bids: seq<LimitOrder>
    var asks: seq<LimitOrder>
    var currentPrice: real
    var integrityViolationCount: nat
    const baseFillProbability: real
    const fillProbabilityFloor: real

    ghost function View(): Book
      reads this, bids, asks
    {
      Book(Views(bids), Views(asks), currentPrice, integrityViolationCount)
    }

    /** No order object is listed twice. */
    ghost predicate Valid()
      reads this
    {
      Distinct(bids + asks)
    }

    constructor (initialPrice: real, baseFillProbability: real, floor: real, now: real)
      requires now > 0.0
      ensures Valid() && fresh(bids) && fresh(asks)
      ensures View() == SeedBook(initialPrice, now)
      ensures this.baseFillProbability == baseFillProbability
      ensures fillProbabilityFloor == if floor < 0.0 then 0.0 else if floor > 1.0 then 1.0 else floor
    {
      currentPrice, integrityViolationCount := initialPrice, 0;
      this.baseFillProbability, fillProbabilityFloor := baseFillProbability, Max(0.0, Min(1.0, floor));
      var b := SeedSide("b1", "b2", "b3", BUY, initialPrice, -1.0, now);
      var a := SeedSide("a1", "a2", "a3", SELL, initialPrice, 1.0, now);
      bids, asks := b, a;
      new;
      DistinctJoin(b, a);
    }

    /** Fills the order and the best resting order by what they have in common;
        a resting order that is thereby full leaves the book. */
    static method TakeBest(order: LimitOrder, book: seq<LimitOrder>) returns (rest: seq<LimitOrder>, fill: Fill)
      requires book != [] && Distinct(book) && order !in book
      modifies order, book[0]
      ensures order.View() == HitOrder(old(order.View()), old(book[0].View()))
      ensures Views(rest) == HitBook(old(order.View()), old(Views(book)))
      ensures fill == FillOf(old(order.View()), old(book[0].View()),
                             Min(old(order.View().Remaining()), old(book[0].View().Remaining())))
      ensures fill.price == book[0].price
      ensures (rest == book && order.filledQty >= order.qty) || (rest == book[1..] && book[0].filledQty >= book[0].qty)
    {
      ghost var v0 := Views(book);
      var best := book[0];
      var matched := Min(order.qty - order.filledQty, best.qty - best.filledQty);
      fill := FillOf(order.View(), best.View(), matched);
      order.filledQty := order.filledQty + matched;
      best.filledQty := best.filledQty + matched;
      rest := if best.filledQty >= best.qty then book[1..] else book;
      assert Views(book) == [best.View()] + v0[1..];
      assert Views(book[1..]) == v0[1..];
    }

    /** The loop that eats into `book`, the side opposite to the order. */
    method MatchLoop(order: LimitOrder, book: seq<LimitOrder>, prob: real, penalty: real, draws: nat -> real)
      returns (rest: seq<LimitOrder>, fills: seq<Fill>, slipped: bool)
      requires Distinct(book) && order !in book
      modifies order, book, `currentPrice
      ensures Distinct(rest) && forall o :: o in rest ==> o in book
      ensures Matched(order.View(), Views(rest), fills, slipped)
           == Match(old(order.View()), old(Views(book)), prob, penalty, draws, 0)
      ensures currentPrice == LastPrice(fills, old(currentPrice))
    {
      hide Match, HitBook, HitOrder, Resumed, FillOf;
      rest, fills, slipped := book, [], false;
      Start(order.View(), Views(book), prob, penalty, draws);
      ghost var whole := Match(order.View(), Views(book), prob, penalty, draws, 0);
      while rest != [] && order.filledQty < order.qty && Crosses(order.View(), rest[0].View())
        invariant Distinct(rest) && forall o :: o in rest ==> o in book
        invariant whole == Resumed(fills, Match(order.View(), Views(rest), prob, penalty, draws, |fills|))
        invariant currentPrice == LastPrice(fills, old(currentPrice))
        decreases |rest|, if order.filledQty < order.qty then 1 else 0
      {
        ghost var o0, v0, done := order.View(), Views(rest), fills;
        if draws(|fills|) > prob {
          order.priority := order.priority + penalty;
          slipped := true;
          assert Views(rest) == v0;
          Stop(o0, v0, prob, penalty, draws, fills);
          return;
        }
        currentPrice := rest[0].price;
        assert rest[0] in book;
        var fill;
        rest, fill := TakeBest(order, rest);
        fills := fills + [fill];
        assert whole == Resumed(fills, Match(order.View(), Views(rest), prob, penalty, draws, |fills|)) by {
          OneStep(o0, v0, prob, penalty, draws, done, fill);
        }
      }
      Stop(order.View(), Views(rest), prob, penalty, draws, fills);
    }

    static ghost function Resumed(done: seq<Fill>, m: Matched): Matched { m.(fills := done + m.fills) }

    static lemma Start(o: Entry, book: seq<Entry>, prob: real, penalty: real, draws: nat -> real)
      ensures Resumed([], Match(o, book, prob, penalty, draws, 0)) == Match(o, book, prob, penalty, draws, 0)
    {
      hide Match;
    }

    static lemma Stop(o: Entry, book: seq<Entry>, prob: real, penalty: real, draws: nat -> real, done: seq<Fill>)
      ensures book == [] || o.filled >= o.qty || !Crosses(o, book[0]) ==>
                (Resumed(done, Match(o, book, prob, penalty, draws, |done|)) == Matched(o, book, done, false))
      ensures book != [] && o.filled < o.qty && Crosses(o, book[0]) && draws(|done|) > prob ==>
                (Resumed(done, Match(o, book, prob, penalty, draws, |done|))
              == Matched(o.(priority := o.priority + penalty), book, done, true))
    {
    }

    static lemma OneStep(o: Entry, book: seq<Entry>, prob: real, penalty: real, draws: nat -> real, done: seq<Fill>,
                         fill: Fill)
      requires book != [] && o.filled < o.qty && Crosses(o, book[0]) && draws(|done|) <= prob
      requires fill == FillOf(o, book[0], Min(o.Remaining(), book[0].Remaining()))
      ensures Resumed(done, Match(o, book, prob, penalty, draws, |done|))
           == Resumed(done + [fill],
                      Match(HitOrder(o, book[0]), HitBook(o, book), prob, penalty, draws, |done + [fill]|))
    {
      hide HitOrder, HitBook, FillOf, Crosses;
      var r := Match(HitOrder(o, book[0]), HitBook(o, book), prob, penalty, draws, |done| + 1);
      assert Match(o, book, prob, penalty, draws, |done|) == r.(fills := [fill] + r.fills);
      assert done + ([fill] + r.fills) == done + [fill] + r.fills;
    }

    /** Appends, re-sorts, and takes the order out again if its side now crosses the other. */
    static method Rest(order: LimitOrder, own: seq<LimitOrder>, other: seq<LimitOrder>)
      returns (rested: seq<LimitOrder>, crossed: bool)
      requires Distinct(own) && order !in own
      ensures (Views(rested), crossed) == RestResidual(Views(own), Views(other), order.View())
      ensures Distinct(rested) && forall o :: o in rested ==> o in own + [order]
    {
      hide StableSort, AheadOn, RemoveFirst;
      rested := SortOrders(own + [order], order.side);
      assert Views(own + [order]) == Views(own) + [order.View()];
      DistinctAfterSort(rested, own + [order]);
      var bids, asks := if order.side == BUY then rested else other, if order.side == BUY then other else rested;
      crossed := bids != [] && asks != [] && bids[0].price >= asks[0].price;
      if crossed { rested := RemoveEqual(rested, order); }
    }

    /** What happens to the order once matching has stopped. */
    static method Finish(order: LimitOrder, own: seq<LimitOrder>, rest: seq<LimitOrder>, fills: seq<Fill>,
                         slipped: bool)
      returns (own': seq<LimitOrder>, rest': seq<LimitOrder>, outcome: Outcome)
      requires Distinct(own) && Distinct(rest) && order !in own && order !in rest
      ensures Settled(Views(own'), Views(rest'), outcome)
           == Settle(Views(own), Matched(order.View(), Views(rest), fills, slipped))
      ensures Distinct(own') && Distinct(rest')
      ensures forall o :: o in own' ==> o == order || o in own
      ensures forall o :: o in rest' ==> o in rest
    {
      own', rest', outcome := own, rest, Filled(fills);
      if slipped {
        own' := RemoveEqual(own, order);
        rest' := RemoveEqual(rest, order);
        outcome := IntegrityViolation;
      } else if order.filledQty < order.qty && order.price > 0.0 {
        var crossed;
        own', crossed := Rest(order, own, rest);
        if crossed { outcome := IntegrityViolation; }
      }
    }

    /** The resulting book, order and outcome are those of `Place`, whatever the
        state of the book. */
    method PlaceOrder(order: LimitOrder, stress: real, draws: nat -> real) returns (outcome: Outcome)
      requires Valid() && order !in bids && order !in asks
      modifies this, bids, asks, order
      ensures Valid()
      ensures Placed(View(), order.View(), outcome)
           == Place(old(View()), old(order.View()), FillProbability(baseFillProbability, fillProbabilityFloor, stress),
                    SlipPenalty(stress), draws)
      ensures forall o :: o in bids + asks ==> o == order || o in old(bids + asks)
    {
      hide Match, FillProbability, Settle, SlipPenalty, LastPrice;
      var prob, penalty := FillProbability(baseFillProbability, fillProbabilityFloor, stress), SlipPenalty(stress);
      ghost var start, o0 := View(), order.View();
      if order.side != BUY && order.side != SELL { return InvalidSide; }
      var buying := order.side == BUY;
      var own, book := if buying then bids else asks, if buying then asks else bids;
      DistinctParts(bids, asks);
      Disjoint(own, book);
      var rest, fills, slipped := MatchLoop(order, book, prob, penalty, draws);
      ghost var left := order.View();
      assert Views(own) == Own(start, o0.side);
      ghost var matched := Matched(left, Views(rest), fills, slipped);
      own, rest, outcome := Finish(order, own, rest, fills, slipped);
      ghost var settled := Settled(Views(own), Views(rest), outcome);
      assert settled == Settle(Own(start, o0.side), matched);
      if outcome.IntegrityViolation? { integrityViolationCount := integrityViolationCount + 1; }
      bids, asks := if buying then own else rest, if buying then rest else own;
      DistinctJoin(own, rest);
      DistinctJoin(rest, own);
      assert order.View() == left && Views(own) == settled.own && Views(rest) == settled.other;
      assert View() == Assemble(o0.side, settled.own, settled.other, currentPrice, integrityViolationCount);
      hide Views, Assemble;
    }

    /** Position of the first order with this id, or the length of the list. */
    static method Find(s: seq<LimitOrder>, orderId: string) returns (i: nat)
      ensures i == IndexOf(Views(s), orderId)
    {
      i := 0;
      while i < |s| && s[i].orderId != orderId
        invariant 0 <= i <= |s|
        invariant forall j :: 0 <= j < i ==> Views(s)[j].id != orderId
      {
        i := i + 1;
      }
      FirstIndex(Views(s), orderId, i);
    }

    static lemma FirstIndex(t: seq<Entry>, id: string, i: nat)
      requires i <= |t| && (i < |t| ==> t[i].id == id)
      requires forall j :: 0 <= j < i ==> t[j].id != id
      ensures IndexOf(t, id) == i
    {
    }

    method CancelOrder(orderId: string) returns (found: bool)
      requires Valid()
      modifies this
      ensures Valid()
      ensures (View(), found) == Cancel(old(View()), orderId)
    {
      hide IndexOf, DropAt, Distinct;
      var i := Find(bids, orderId);
      if i < |bids| {
        Drop(bids, asks, i);
        bids := bids[..i] + bids[i + 1..];
        return true;
      }
      var j := Find(asks, orderId);
      if j < |asks| {
        Drop(asks, bids, j);
        asks := asks[..j] + asks[j + 1..];
        return true;
      }
      return false;
    }

    static lemma Drop(s: seq<LimitOrder>, t: seq<LimitOrder>, i: nat)
      requires i < |s| && (Distinct(s + t) || Distinct(t + s))
      ensures Views(s[..i] + s[i + 1..]) == DropAt(Views(s), i)
      ensures Distinct(s[..i] + s[i + 1..] + t) && Distinct(t + (s[..i] + s[i + 1..]))
    {
      if Distinct(s + t) { DistinctParts(s, t); } else { DistinctParts(t, s); }
      var d := s[..i] + s[i + 1..];
      forall j | 0 <= j < |d| ensures d[j] == s[if j < i then j else j + 1] {}
      DistinctJoin(d, t);
      DistinctJoin(t, d);
    }

    static lemma Disjoint(s: seq<LimitOrder>, t: seq<LimitOrder>)
      requires (forall i, j :: 0 <= i < |s| && 0 <= j < |t| ==> s[i] != t[j])
            || (forall i, j :: 0 <= i < |t| && 0 <= j < |s| ==> t[i] != s[j])
      ensures forall o :: !(o in s && o in t)
    {
    }
  }
}
