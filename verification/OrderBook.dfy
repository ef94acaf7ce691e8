/** The limit order book on values: what placing and cancelling compute. The
    class in SyntheticLob.dfy is proved to compute exactly these functions. */
module OrderBook {
  import opened Common

  const BUY := "buy"
  const SELL := "sell"

  /** Every field of a resting or incoming order, as dataclass equality sees it. */
  datatype Entry = Entry(
    id: string, side: string, price: real, qty: real, timestamp: real,
    agent: string, filled: real, arrival: real, priority: real)
  {
    function Remaining(): real { qty - filled }
  }

  datatype Fill = Fill(buyId: string, sellId: string, price: real, qty: real)

  datatype Book = Book(bids: seq<Entry>, asks: seq<Entry>, lastPrice: real, violations: nat)

  datatype Outcome = Filled(fills: seq<Fill>) | IntegrityViolation | InvalidSide

  datatype Placed = Placed(book: Book, order: Entry, outcome: Outcome)

  function Crosses(o: Entry, best: Entry): bool {
    if o.side == BUY then o.price >= best.price else o.price <= best.price
  }

  function FillOf(o: Entry, best: Entry, qty: real): Fill {
    if o.side == BUY then Fill(o.id, best.id, best.price, qty) else Fill(best.id, o.id, best.price, qty)
  }

  // -------------------------------------------------------------------------
  // Friction
  // -------------------------------------------------------------------------

  function FillProbability(base: real, floor: real, stress: real): real {
    if base <= 0.0 then 0.0
    else Min(Max(floor, base - 0.25 * Max(0.0, Min(1.0, stress))), base)
  }

  function SlipPenalty(stress: real): real { if stress < 0.70 then 50.0 else 75.0 }

  /** More stress never raises the fill probability, the floor never lifts it
      above the base, and for a base below it the base wins over the floor. Above
      the floor a full unit of stress costs a quarter, stress being cut to [0, 1]. */
  lemma FillProbabilityFalls(base: real, floor: real, stress: real, worse: real)
    requires stress <= worse && floor >= 0.0
    ensures 0.0 <= FillProbability(base, floor, worse) <= FillProbability(base, floor, stress)
    ensures base >= 0.0 ==> FillProbability(base, floor, stress) <= base
    ensures FillProbability(base, floor, stress) >= Min(Max(base, 0.0), floor)
    ensures stress <= 0.0 && base >= 0.0 ==> FillProbability(base, floor, stress) == base
    ensures 0.0 <= stress <= worse <= 1.0 && FillProbability(base, floor, worse) > floor ==>
              FillProbability(base, floor, stress) - FillProbability(base, floor, worse) == (worse - stress) / 4.0
    ensures stress >= 1.0 ==> FillProbability(base, floor, worse) == FillProbability(base, floor, stress)
  {
    ProductMonotone(0.25, Max(0.0, Min(1.0, stress)), Max(0.0, Min(1.0, worse)));
  }

  // -------------------------------------------------------------------------
  // Matching
  // -------------------------------------------------------------------------

  datatype Matched = Matched(order: Entry, book: seq<Entry>, fills: seq<Fill>, slipped: bool)

  /** One step of the matching loop: what the next fill makes of the order and of the opposite side. */
  function HitOrder(o: Entry, best: Entry): Entry { o.(filled := o.filled + Min(o.Remaining(), best.Remaining())) }

  function HitBook(o: Entry, book: seq<Entry>): seq<Entry>
    requires book != []
  {
    var hit := book[0].(filled := book[0].filled + Min(o.Remaining(), book[0].Remaining()));
    if hit.filled >= hit.qty then book[1..] else [hit] + book[1..]
  }

  /** The matching loop against the opposite side of the book. `draws(k)` is the
      random number drawn for the k-th crossing attempt of this placement. */
  function Match(o: Entry, book: seq<Entry>, prob: real, penalty: real, draws: nat -> real, k: nat): Matched
    decreases |book|, if o.filled < o.qty then 1 else 0
  {
    if book == [] || o.filled >= o.qty || !Crosses(o, book[0]) then
      Matched(o, book, [], false)
    else if draws(k) > prob then
      Matched(o.(priority := o.priority + penalty), book, [], true)
    else
      var r := Match(HitOrder(o, book[0]), HitBook(o, book), prob, penalty, draws, k + 1);
      r.(fills := [FillOf(o, book[0], Min(o.Remaining(), book[0].Remaining()))] + r.fills)
  }

  /** Sort key order of one side: best price first, then priority time. */
  function AheadOn(side: string): (Entry, Entry) -> bool {
    if side == BUY
    then (a: Entry, b: Entry) => a.price > b.price || (a.price == b.price && a.priority < b.priority)
    else (a: Entry, b: Entry) => a.price < b.price || (a.price == b.price && a.priority < b.priority)
  }

  /** list.remove: drops the first equal element, if there is one. */
  function RemoveFirst(s: seq<Entry>, o: Entry): seq<Entry> {
    if s == [] then [] else if s[0] == o then s[1..] else [s[0]] + RemoveFirst(s[1..], o)
  }

  predicate Crossed(bids: seq<Entry>, asks: seq<Entry>) {
    bids != [] && asks != [] && bids[0].price >= asks[0].price
  }

  /** Puts the two sides back into a book, given which one the order belongs to. */
  function Assemble(side: string, own: seq<Entry>, other: seq<Entry>, lastPrice: real, violations: nat): Book {
    if side == BUY then Book(own, other, lastPrice, violations) else Book(other, own, lastPrice, violations)
  }

  function Own(b: Book, side: string): seq<Entry> { if side == BUY then b.bids else b.asks }

  function Other(b: Book, side: string): seq<Entry> { if side == BUY then b.asks else b.bids }

  /** Rests what is left of an order, unless that leaves the book crossed: its new own side, and whether it did. */
  function RestResidual(own: seq<Entry>, other: seq<Entry>, o: Entry): (seq<Entry>, bool) {
    var rested := StableSort(own + [o], AheadOn(o.side));
    var crossed := if o.side == BUY then Crossed(rested, other) else Crossed(other, rested);
    (if crossed then RemoveFirst(rested, o) else rested, crossed)
  }

  function LastPrice(fills: seq<Fill>, before: real): real {
    if fills == [] then before else fills[|fills| - 1].price
  }

  datatype Settled = Settled(own: seq<Entry>, other: seq<Entry>, outcome: Outcome)

  /** After matching: a slipped order is taken off both sides and reported, a residual rests. */
  function Settle(own: seq<Entry>, m: Matched): Settled {
    if m.slipped then
      Settled(RemoveFirst(own, m.order), RemoveFirst(m.book, m.order), IntegrityViolation)
    else if m.order.filled < m.order.qty && m.order.price > 0.0 then
      var (rested, crossed) := RestResidual(own, m.book, m.order);
      Settled(rested, m.book, if crossed then IntegrityViolation else Filled(m.fills))
    else
      Settled(own, m.book, Filled(m.fills))
  }

  function Place(b: Book, o: Entry, prob: real, penalty: real, draws: nat -> real): Placed {
    if o.side != BUY && o.side != SELL then Placed(b, o, InvalidSide)
    else
      var m := Match(o, Other(b, o.side), prob, penalty, draws, 0);
      var s := Settle(Own(b, o.side), m);
      Placed(Assemble(o.side, s.own, s.other, LastPrice(m.fills, b.lastPrice),
                      b.violations + if s.outcome.IntegrityViolation? then 1 else 0),
             m.order, s.outcome)
  }

  // -------------------------------------------------------------------------
  // Cancelling
  // -------------------------------------------------------------------------

  function IndexOf(s: seq<Entry>, id: string): (i: nat)
    ensures i <= |s|
    ensures i < |s| ==> s[i].id == id
    ensures forall j :: 0 <= j < i ==> s[j].id != id
  {
    FirstWhere(s, (o: Entry) => o.id == id)
  }

  function DropAt(s: seq<Entry>, i: nat): seq<Entry>
    requires i < |s|
  {
    s[..i] + s[i + 1..]
  }

  function Cancel(b: Book, id: string): (Book, bool) {
    var i, j := IndexOf(b.bids, id), IndexOf(b.asks, id);
    if i < |b.bids| then (b.(bids := DropAt(b.bids, i)), true)
    else if j < |b.asks| then (b.(asks := DropAt(b.asks, j)), true)
    else (b, false)
  }

  // -------------------------------------------------------------------------
  // Seeded depth
  // -------------------------------------------------------------------------

  function Seed(id: string, side: string, price: real, qty: real, now: real): Entry {
    Entry(id, side, price, qty, now, "mm_init", 0.0, now, now)
  }

  function SeedBook(price: real, now: real): Book {
    Book([Seed("b1", BUY, price - 1.0, 2.5, now), Seed("b2", BUY, price - 5.0, 5.0, now),
          Seed("b3", BUY, price - 10.0, 10.0, now)],
         [Seed("a1", SELL, price + 1.0, 2.5, now), Seed("a2", SELL, price + 5.0, 5.0, now),
          Seed("a3", SELL, price + 10.0, 10.0, now)],
         price, 0)
  }
}

/** What the order book keeps and promises, over single placements and whole runs. */
module OrderBookProofs {
  import opened Common
  import opened BookWalk
  import opened OrderBook

  /** One side: sorted by price and then time, every order live. */
  ghost predicate GoodSide(s: seq<Entry>, side: string) {
    && Sorted(s, AheadOn(side))
    && (forall i :: 0 <= i < |s| ==> s[i].side == side && 0.0 <= s[i].filled < s[i].qty)
  }

  ghost predicate Inv(b: Book) {
    && GoodSide(b.bids, BUY)
    && GoodSide(b.asks, SELL)
    && !Crossed(b.bids, b.asks)
  }

  function Flip(side: string): string { if side == BUY then SELL else BUY }

  lemma AheadIsKeyOrder(side: string)
    ensures KeyOrder(AheadOn(side))
  {
  }

  /** A tail of a good side, with its head partly filled, is still good. */
  lemma HitHeadKeepsSide(book: seq<Entry>, side: string, qty: real)
    requires GoodSide(book, side) && book != [] && 0.0 <= qty
    ensures GoodSide(book[1..], side)
    ensures var hit := book[0].(filled := book[0].filled + qty);
            hit.filled < hit.qty ==> GoodSide([hit] + book[1..], side)
  {
    var hit := book[0].(filled := book[0].filled + qty);
    var s := [hit] + book[1..];
    var before := AheadOn(side);
    forall i, j | 0 <= i < j < |s| ensures !before(s[j], s[i]) {
      assert s[j] == book[j];
      assert !before(book[j], book[i]);
    }
  }

  ghost predicate Stops(o: Entry, book: seq<Entry>, prob: real, draw: real) {
    book == [] || o.filled >= o.qty || !Crosses(o, book[0]) || draw > prob
  }

  /** Each step either shortens the opposite side or fills the order. */
  lemma HitProgress(o: Entry, book: seq<Entry>)
    requires book != []
    ensures |HitBook(o, book)| < |book| || (|HitBook(o, book)| == |book| && HitOrder(o, book[0]).filled >= o.qty)
    ensures HitOrder(o, book[0]).qty == o.qty
  {
  }

  lemma HitKeepsSide(o: Entry, book: seq<Entry>, side: string)
    requires GoodSide(book, side) && book != [] && o.filled < o.qty
    ensures GoodSide(HitBook(o, book), side)
  {
    var qty := Min(o.Remaining(), book[0].Remaining());
    HitHeadKeepsSide(book, side, qty);
    var hit := book[0].(filled := book[0].filled + qty);
    assert HitBook(o, book) == if hit.filled >= hit.qty then book[1..] else [hit] + book[1..];
  }

  /** The incoming order only gains fills, never beyond its quantity, and
      changes nothing else but its priority when it slips. Unless it slipped,
      it ends full or no longer crossing. */
  lemma {:induction false} MatchOrder(o: Entry, book: seq<Entry>, side: string, prob: real, penalty: real,
                                      draws: nat -> real, k: nat)
    requires GoodSide(book, side)
    ensures var m := Match(o, book, prob, penalty, draws, k);
      && o.filled <= m.order.filled
      && (o.filled <= o.qty ==> m.order.filled <= o.qty)
      && m.order == o.(filled := m.order.filled, priority := if m.slipped then o.priority + penalty else o.priority)
      && (m.slipped ==> m.order.filled < o.qty && m.book != [] && Crosses(o, m.book[0]))
      && (!m.slipped ==> m.order.filled >= o.qty || m.book == [] || !Crosses(o, m.book[0]))
    decreases |book|, if o.filled < o.qty then 1 else 0
  {
    if !Stops(o, book, prob, draws(k)) {
      HitKeepsSide(o, book, side);
      MatchOrder(HitOrder(o, book[0]), HitBook(o, book), side, prob, penalty, draws, k + 1);
    }
  }

  /** What matching leaves of a side: a tail of it, with at most the new head partly consumed. */
  ghost predicate TailOf(left: seq<Entry>, book: seq<Entry>) {
    && |left| <= |book|
    && (left != [] ==>
        var n := |book| - |left|;
        left[1..] == book[n + 1..] && left[0] == book[n].(filled := left[0].filled) && book[n].filled <= left[0].filled)
  }

  lemma {:induction false} MatchLeavesTail(o: Entry, book: seq<Entry>, side: string, prob: real, penalty: real,
                                           draws: nat -> real, k: nat)
    requires GoodSide(book, side)
    ensures var left := Match(o, book, prob, penalty, draws, k).book;
            GoodSide(left, side) && TailOf(left, book)
    decreases |book|, if o.filled < o.qty then 1 else 0
  {
    hide TailOf, HitOrder, HitBook, Crosses, FillOf;
    TailOfSelf(book);
    if !Stops(o, book, prob, draws(k)) {
      HitKeepsSide(o, book, side);
      HitProgress(o, book);
      MatchLeavesTail(HitOrder(o, book[0]), HitBook(o, book), side, prob, penalty, draws, k + 1);
      assert Match(o, book, prob, penalty, draws, k).book
          == Match(HitOrder(o, book[0]), HitBook(o, book), prob, penalty, draws, k + 1).book;
      TailOfTail(Match(o, book, prob, penalty, draws, k).book, o, book);
    }
  }

  lemma TailOfSelf(book: seq<Entry>)
    ensures TailOf(book, book)
  {
  }

  lemma TailOfTail(left: seq<Entry>, o: Entry, book: seq<Entry>)
    requires book != [] && o.filled < o.qty && book[0].filled < book[0].qty
    requires TailOf(left, HitBook(o, book))
    ensures TailOf(left, book)
  {
    var rest := HitBook(o, book);
    if left != [] && |rest| == |book| {
      var n := |book| - |left|;
      assert rest[n + 1..] == book[n + 1..];
    }
  }

  // -------------------------------------------------------------------------
  // Quantity and money
  // -------------------------------------------------------------------------

  function Levels(book: seq<Entry>): (l: seq<Level>)
    ensures |l| == |book|
    ensures forall i :: 0 <= i < |book| ==> l[i] == Level(book[i].price, book[i].Remaining())
  {
    if book == [] then [] else [Level(book[0].price, book[0].Remaining())] + Levels(book[1..])
  }

  function FilledQty(fills: seq<Fill>): real {
    if fills == [] then 0.0 else fills[0].qty + FilledQty(fills[1..])
  }

  function FilledValue(fills: seq<Fill>): real {
    if fills == [] then 0.0 else Value(fills[0].qty, fills[0].price) + FilledValue(fills[1..])
  }

  /** Depth priced within the order's limit, wherever it sits in the book. */
  function EligibleDepth(o: Entry, book: seq<Entry>): real {
    if book == [] then 0.0
    else (if Crosses(o, book[0]) then book[0].Remaining() else 0.0) + EligibleDepth(o, book[1..])
  }

  lemma {:induction false} NothingEligible(o: Entry, book: seq<Entry>, side: string)
    requires GoodSide(book, side) && side == Flip(o.side) && (o.side == BUY || o.side == SELL)
    requires book != [] ==> !Crosses(o, book[0])
    ensures EligibleDepth(o, book) == 0.0
  {
    if |book| > 1 {
      HitHeadKeepsSide(book, side, 0.0);
      var before := AheadOn(side);
      assert !before(book[1], book[0]);
      NothingEligible(o, book[1..], side);
    }
  }

  lemma {:induction false} EligibleNonNegative(o: Entry, book: seq<Entry>, side: string)
    requires GoodSide(book, side)
    ensures EligibleDepth(o, book) >= 0.0
  {
    if book != [] {
      HitHeadKeepsSide(book, side, 0.0);
      EligibleNonNegative(o, book[1..], side);
    }
  }

  /** Every unit the incoming order gains is a unit some resting order loses, and
      is reported exactly once, also when matching slips part-way. */
  lemma {:induction false} MatchConserves(o: Entry, book: seq<Entry>, side: string, prob: real, penalty: real,
                                          draws: nat -> real, k: nat)
    requires GoodSide(book, side) && 0.0 <= o.filled
    ensures var m := Match(o, book, prob, penalty, draws, k);
      && m.order.filled - o.filled == FilledQty(m.fills)
      && m.order.filled - o.filled == Depth(Levels(book)) - Depth(Levels(m.book))
    decreases |book|, if o.filled < o.qty then 1 else 0
  {
    if !Stops(o, book, prob, draws(k)) {
      HitKeepsSide(o, book, side);
      MatchConserves(HitOrder(o, book[0]), HitBook(o, book), side, prob, penalty, draws, k + 1);
    }
  }

  /** With no slip the order gets min(wanted, everything priced within its limit). */
  lemma {:induction false} MatchAmount(o: Entry, book: seq<Entry>, prob: real, penalty: real, draws: nat -> real,
                                       k: nat)
    requires o.side == BUY || o.side == SELL
    requires GoodSide(book, Flip(o.side)) && o.filled <= o.qty
    ensures var m := Match(o, book, prob, penalty, draws, k);
      !m.slipped ==> m.order.filled - o.filled == Min(o.Remaining(), EligibleDepth(o, book))
    decreases |book|, if o.filled < o.qty then 1 else 0
  {
    var side := Flip(o.side);
    EligibleNonNegative(o, book, side);
    if !Stops(o, book, prob, draws(k)) {
      HitKeepsSide(o, book, side);
      MatchAmount(HitOrder(o, book[0]), HitBook(o, book), prob, penalty, draws, k + 1);
      EligibleIgnoresFill(o, HitOrder(o, book[0]), book[1..]);
      HitHeadKeepsSide(book, side, 0.0);
      EligibleNonNegative(o, book[1..], side);
    } else if book == [] || !Crosses(o, book[0]) {
      NothingEligible(o, book, side);
    }
  }

  /** What got matched, slip or not, is paid for exactly as a walk of that size over the resting levels. */
  lemma {:induction false} MatchIsWalk(o: Entry, book: seq<Entry>, side: string, prob: real, penalty: real,
                                       draws: nat -> real, k: nat)
    requires GoodSide(book, side)
    ensures var m := Match(o, book, prob, penalty, draws, k);
            var levels := Levels(book);
            FilledValue(m.fills) == Cost(Take(m.order.filled - o.filled, levels), levels)
    decreases |book|, if o.filled < o.qty then 1 else 0
  {
    hide Value, Cost, Take, FilledValue, HitOrder, HitBook, Crosses, FillOf;
    var levels := Levels(book);
    if Stops(o, book, prob, draws(k)) {
      TakeNothing(levels);
      NoFills();
    } else {
      var o', rest := HitOrder(o, book[0]), HitBook(o, book);
      var qty := Min(o.Remaining(), book[0].Remaining());
      var r := Match(o', rest, prob, penalty, draws, k + 1);
      FirstFill(o, book, prob, penalty, draws, k, qty, levels[0].price);
      HitKeepsSide(o, book, side);
      HitProgress(o, book);
      MatchIsWalk(o', rest, side, prob, penalty, draws, k + 1);
      WalkBehindHead(o, book, side, prob, penalty, draws, k, qty);
      OneMoreFill(Match(o, book, prob, penalty, draws, k).fills, r.fills, qty, r.order.filled - o.filled, levels);
    }
  }

  /** After the first fill, what is still to be walked starts behind the head of the book. */
  lemma WalkBehindHead(o: Entry, book: seq<Entry>, side: string, prob: real, penalty: real, draws: nat -> real, k: nat,
                       qty: real)
    requires GoodSide(book, side) && !Stops(o, book, prob, draws(k))
    requires qty == Min(o.Remaining(), book[0].Remaining())
    ensures var o', rest := HitOrder(o, book[0]), HitBook(o, book);
            var levels, after := Levels(book), Levels(rest);
            var r := Match(o', rest, prob, penalty, draws, k + 1);
            var got, left := r.order.filled - o'.filled, r.order.filled - o.filled - qty;
            && qty == Min(r.order.filled - o.filled, levels[0].avail)
            && Cost(Take(got, after), after) == Cost(Take(left, levels[1..]), levels[1..])
  {
    hide Value, Cost, Take, Crosses, FillOf, Depth;
    var o', rest := HitOrder(o, book[0]), HitBook(o, book);
    HitKeepsSide(o, book, side);
    MatchOrder(o', rest, side, prob, penalty, draws, k + 1);
    assert Levels(book)[1..] == Levels(book[1..]);
    if o'.filled >= o'.qty {
      HitHeadKeepsSide(book, side, 0.0);
      TakeNothing(Levels(rest));
      TakeNothing(Levels(book[1..]));
    }
  }

  lemma NoFills()
    ensures FilledValue([]) == 0.0
  {
  }

  lemma OneMoreFill(fills: seq<Fill>, later: seq<Fill>, qty: real, total: real, levels: seq<Level>)
    requires levels != [] && qty == Min(total, levels[0].avail)
    requires FilledValue(fills) == Value(qty, levels[0].price) + FilledValue(later)
    requires FilledValue(later) == Cost(Take(total - qty, levels[1..]), levels[1..])
    ensures FilledValue(fills) == Cost(Take(total, levels), levels)
  {
    hide Value;
    TakeStep(total, levels, qty, levels[1..]);
  }

  lemma FirstFill(o: Entry, book: seq<Entry>, prob: real, penalty: real, draws: nat -> real, k: nat, qty: real,
                  price: real)
    requires !Stops(o, book, prob, draws(k))
    requires qty == Min(o.Remaining(), book[0].Remaining()) && price == book[0].price
    ensures var r := Match(HitOrder(o, book[0]), HitBook(o, book), prob, penalty, draws, k + 1);
            var m := Match(o, book, prob, penalty, draws, k);
            && FilledValue(m.fills) == Value(qty, price) + FilledValue(r.fills)
            && m.order == r.order
  {
    hide Value;
    var r := Match(HitOrder(o, book[0]), HitBook(o, book), prob, penalty, draws, k + 1);
    assert Match(o, book, prob, penalty, draws, k).fills == [FillOf(o, book[0], qty)] + r.fills;
  }

  lemma {:induction false} TakeNothing(levels: seq<Level>)
    requires NonNegative(levels)
    ensures Cost(Take(0.0, levels), levels) == 0.0
  {
    if levels != [] {
      TakeStep(0.0, levels, 0.0, levels[1..]);
      TakeNothing(levels[1..]);
    }
  }

  lemma {:induction false} EligibleIgnoresFill(o: Entry, o': Entry, book: seq<Entry>)
    requires o' == o.(filled := o'.filled)
    ensures EligibleDepth(o, book) == EligibleDepth(o', book)
  {
    if book != [] { EligibleIgnoresFill(o, o', book[1..]); }
  }

  lemma LevelsOrdered(book: seq<Entry>, side: string)
    requires GoodSide(book, side)
    ensures NonNegative(Levels(book))
    ensures side == SELL ==> Ascending(Levels(book))
    ensures side == BUY ==> Descending(Levels(book))
  {
    var before := AheadOn(side);
    forall i, j | 0 <= i < j < |book| ensures !before(book[j], book[i]) {}
  }

  /** Greedy optimality. A placement that does not slip matches and reports
      min(wanted, everything priced within the limit). */
  lemma PlacementFillsAll(b: Book, o: Entry, prob: real, penalty: real, draws: nat -> real)
    requires Inv(b) && (o.side == BUY || o.side == SELL) && 0.0 <= o.filled <= o.qty
    ensures var r := Place(b, o, prob, penalty, draws);
      r.outcome.Filled? ==>
        && r.order.filled - o.filled == FilledQty(r.outcome.fills)
        && FilledQty(r.outcome.fills) == Min(o.Remaining(), EligibleDepth(o, Other(b, o.side)))
  {
    hide Match, EligibleDepth, FilledQty, Crosses, Depth, Levels, Inv, GoodSide;
    SidesAreGood(b);
    ReportOfPlacement(b, o, prob, penalty, draws);
    MatchAmount(o, Other(b, o.side), prob, penalty, draws, 0);
    MatchConserves(o, Other(b, o.side), Flip(o.side), prob, penalty, draws, 0);
  }

  /** And whatever was matched, slip or not, no allocation of the same quantity
      over the resting orders is cheaper for a buyer or brings a seller more. */
  lemma MatchIsOptimal(o: Entry, book: seq<Entry>, prob: real, penalty: real, draws: nat -> real, alloc: seq<real>)
    requires (o.side == BUY || o.side == SELL) && GoodSide(book, Flip(o.side))
    requires Feasible(alloc, Levels(book))
    requires Sum(alloc) == Match(o, book, prob, penalty, draws, 0).order.filled - o.filled
    ensures var paid := FilledValue(Match(o, book, prob, penalty, draws, 0).fills);
      && (o.side == BUY ==> paid <= Cost(alloc, Levels(book)))
      && (o.side == SELL ==> paid >= Cost(alloc, Levels(book)))
  {
    hide Match, FilledValue, Take, Cost;
    LevelsOrdered(book, Flip(o.side));
    MatchIsWalk(o, book, Flip(o.side), prob, penalty, draws, 0);
    if o.side == BUY {
      WalkIsCheapest(Sum(alloc), Levels(book), alloc);
    } else {
      WalkIsDearest(Sum(alloc), Levels(book), alloc);
    }
  }

  lemma PlacementIsOptimal(b: Book, o: Entry, prob: real, penalty: real, draws: nat -> real, alloc: seq<real>)
    requires Inv(b) && (o.side == BUY || o.side == SELL) && 0.0 <= o.filled
    requires Feasible(alloc, Levels(Other(b, o.side)))
    requires Sum(alloc) == Place(b, o, prob, penalty, draws).order.filled - o.filled
    ensures var paid := FilledValue(Match(o, Other(b, o.side), prob, penalty, draws, 0).fills);
      && (o.side == BUY ==> paid <= Cost(alloc, Levels(Other(b, o.side))))
      && (o.side == SELL ==> paid >= Cost(alloc, Levels(Other(b, o.side))))
  {
    hide Match, FilledValue, Cost;
    MatchIsOptimal(o, Other(b, o.side), prob, penalty, draws, alloc);
  }

  // -------------------------------------------------------------------------
  // The book invariant
  // -------------------------------------------------------------------------

  lemma {:induction false} RemoveAbsent(s: seq<Entry>, o: Entry)
    requires o !in s
    ensures RemoveFirst(s, o) == s
  {
    if s != [] { RemoveAbsent(s[1..], o); }
  }

  lemma {:induction false} InsertHead(s: seq<Entry>, x: Entry, before: (Entry, Entry) -> bool)
    ensures Insert(s, x, before)[0] == x || (s != [] && Insert(s, x, before)[0] == s[0])
  {
    if s == [] || !before(x, s[|s| - 1]) {
    } else {
      InsertHead(s[..|s| - 1], x, before);
      InsertKeepsAll(s[..|s| - 1], x, before);
    }
  }

  /** Resting an order on its own side keeps that side good; its head is the old head or the order. */
  lemma RestKeepsSide(own: seq<Entry>, o: Entry)
    requires GoodSide(own, o.side) && 0.0 <= o.filled < o.qty
    ensures var s := StableSort(own + [o], AheadOn(o.side));
      && GoodSide(s, o.side) && |s| == |own| + 1
      && (s[0] == o || (own != [] && s[0] == own[0]))
      && multiset(s) == multiset(own) + multiset{o}
  {
    var before := AheadOn(o.side);
    AheadIsKeyOrder(o.side);
    StableSortAppend(own, o, before);
    InsertKeepsSorted(own, o, before);
    InsertKeepsAll(own, o, before);
    InsertHead(own, o, before);
    var s := Insert(own, o, before);
    forall i | 0 <= i < |s| ensures s[i].side == o.side && 0.0 <= s[i].filled < s[i].qty {
      assert s[i] in multiset(s);
      assert s[i] == o || s[i] in own;
    }
  }

  /** The head bounds the whole side. */
  lemma HeadIsBest(s: seq<Entry>, side: string, i: nat)
    requires GoodSide(s, side) && i < |s|
    ensures side == BUY ==> s[i].price <= s[0].price
    ensures side != BUY ==> s[i].price >= s[0].price
  {
    var before := AheadOn(side);
    assert i > 0 ==> !before(s[i], s[0]);
  }

  /** A placement keeps the invariant, also when it slips after some matches. The
      post-insert check never fires: an integrity violation is reported exactly
      when matching slipped, and then the order is on neither side: its own side
      is untouched and the opposite side is just what matching left. */
  lemma PlaceKeepsInv(b: Book, o: Entry, prob: real, penalty: real, draws: nat -> real)
    requires Inv(b) && 0.0 <= o.filled
    ensures Inv(Place(b, o, prob, penalty, draws).book)
    ensures o.side != BUY && o.side != SELL ==> Place(b, o, prob, penalty, draws) == Placed(b, o, InvalidSide)
    ensures o.side == BUY || o.side == SELL ==>
      var m := Match(o, Other(b, o.side), prob, penalty, draws, 0);
      var r := Place(b, o, prob, penalty, draws);
      && (r.outcome.IntegrityViolation? <==> m.slipped)
      && Other(r.book, o.side) == m.book
      && (m.slipped ==> Own(r.book, o.side) == Own(b, o.side) && r.book.violations == b.violations + 1)
      && (!m.slipped ==> r.book.violations == b.violations)
      && (!m.slipped ==> multiset(Own(r.book, o.side)) == multiset(Own(b, o.side))
                         + if m.order.filled < o.qty && o.price > 0.0 then multiset{m.order} else multiset{})
  {
    if o.side == BUY || o.side == SELL {
      var own, other := Own(b, o.side), Other(b, o.side);
      var m := Match(o, other, prob, penalty, draws, 0);
      MatchOrder(o, other, Flip(o.side), prob, penalty, draws, 0);
      MatchLeavesTail(o, other, Flip(o.side), prob, penalty, draws, 0);
      if m.book != [] { HeadIsBest(other, Flip(o.side), |other| - |m.book|); }
      if m.slipped {
        forall i | 0 <= i < |own| ensures own[i] != m.order { HeadIsBest(own, o.side, i); }
        RemoveAbsent(own, m.order);
        RemoveAbsent(m.book, m.order);
      } else if m.order.filled < m.order.qty && m.order.price > 0.0 {
        RestKeepsSide(own, m.order);
      }
    }
  }

  lemma DropKeepsSide(s: seq<Entry>, side: string, i: nat)
    requires GoodSide(s, side) && i < |s|
    ensures GoodSide(DropAt(s, i), side)
    ensures DropAt(s, i) != [] ==> exists j :: 0 <= j < |s| && DropAt(s, i)[0] == s[j]
  {
    var before, t := AheadOn(side), DropAt(s, i);
    forall a, c | 0 <= a < c < |t| ensures !before(t[c], t[a]) {
      var a', c' := if a < i then a else a + 1, if c < i then c else c + 1;
      assert !before(s[c'], s[a']);
    }
    if t != [] { assert t[0] == s[if 0 < i then 0 else 1]; }
  }

  lemma CancelKeepsInv(b: Book, id: string)
    requires Inv(b)
    ensures Inv(Cancel(b, id).0)
  {
    var i, j := IndexOf(b.bids, id), IndexOf(b.asks, id);
    if i < |b.bids| {
      DropKeepsSide(b.bids, BUY, i);
      forall k | 0 <= k < |b.bids| ensures b.bids[k].price <= b.bids[0].price { HeadIsBest(b.bids, BUY, k); }
    } else if j < |b.asks| {
      DropKeepsSide(b.asks, SELL, j);
      forall k | 0 <= k < |b.asks| ensures b.asks[k].price >= b.asks[0].price { HeadIsBest(b.asks, SELL, k); }
    }
  }

  /** A cancel takes out the first order with that id, bids before asks, and nothing else. */
  lemma CancelTakesOneOut(b: Book, id: string)
    ensures var (after, found) := Cancel(b, id);
      && (found <==> (exists e :: e in b.bids && e.id == id) || exists e :: e in b.asks && e.id == id)
      && (!found ==> after == b)
      && (found && (exists e :: e in b.bids && e.id == id) ==>
            && after == b.(bids := after.bids)
            && exists i :: 0 <= i < |b.bids| && b.bids[i].id == id && after.bids == b.bids[..i] + b.bids[i + 1..]
                           && forall j :: 0 <= j < i ==> b.bids[j].id != id)
      && (found && !(exists e :: e in b.bids && e.id == id) ==>
            && after == b.(asks := after.asks)
            && exists i :: 0 <= i < |b.asks| && b.asks[i].id == id && after.asks == b.asks[..i] + b.asks[i + 1..]
                           && forall j :: 0 <= j < i ==> b.asks[j].id != id)
  {
    var i, j := IndexOf(b.bids, id), IndexOf(b.asks, id);
    if i < |b.bids| { assert b.bids[i] in b.bids; }
    if j < |b.asks| { assert b.asks[j] in b.asks; }
  }

  datatype Op =
    | PlaceOp(order: Entry, prob: real, penalty: real, draws: nat -> real)
    | CancelOp(id: string)

  function Run(b: Book, ops: seq<Op>): Book
    decreases ops
  {
    if ops == [] then b
    else
      var next := match ops[0]
        case PlaceOp(o, prob, penalty, draws) => Place(b, o, prob, penalty, draws).book
        case CancelOp(id) => Cancel(b, id).0;
      Run(next, ops[1..])
  }

  /** From the seeded book, every run of placements and cancels, with any draws
      and any mix of slips, leaves both sides sorted, live and uncrossed. */
  lemma {:induction false} RunKeepsInv(b: Book, ops: seq<Op>)
    requires Inv(b)
    requires forall i :: 0 <= i < |ops| && ops[i].PlaceOp? ==> 0.0 <= ops[i].order.filled
    ensures Inv(Run(b, ops))
    decreases ops
  {
    if ops != [] {
      match ops[0]
      case PlaceOp(o, prob, penalty, draws) =>
        PlaceKeepsInv(b, o, prob, penalty, draws);
        RunKeepsInv(Place(b, o, prob, penalty, draws).book, ops[1..]);
      case CancelOp(id) =>
        CancelKeepsInv(b, id);
        RunKeepsInv(Cancel(b, id).0, ops[1..]);
    }
  }

  lemma SeedIsGood(price: real, now: real)
    ensures Inv(SeedBook(price, now))
  {
  }

  lemma SeededRunKeepsInv(price: real, now: real, ops: seq<Op>)
    requires forall i :: 0 <= i < |ops| && ops[i].PlaceOp? ==> 0.0 <= ops[i].order.filled
    ensures Inv(Run(SeedBook(price, now), ops))
  {
    SeedIsGood(price, now);
    RunKeepsInv(SeedBook(price, now), ops);
  }

  // -------------------------------------------------------------------------
  // Price and time priority
  // -------------------------------------------------------------------------

  /** Best price first on both sides; at equal prices, no order stands before one with a smaller priority time. */
  ghost predicate PriceTimeOrdered(b: Book) {
    && (forall i, j :: 0 <= i < j < |b.bids| ==>
          b.bids[i].price > b.bids[j].price
          || (b.bids[i].price == b.bids[j].price && b.bids[i].priority <= b.bids[j].priority))
    && forall i, j :: 0 <= i < j < |b.asks| ==>
         b.asks[i].price < b.asks[j].price
         || (b.asks[i].price == b.asks[j].price && b.asks[i].priority <= b.asks[j].priority)
  }

  lemma InvIsPriceTimeOrdered(b: Book)
    requires Inv(b)
    ensures PriceTimeOrdered(b)
  {
    forall i, j | 0 <= i < j < |b.bids| ensures !AheadOn(BUY)(b.bids[j], b.bids[i]) {}
    forall i, j | 0 <= i < j < |b.asks| ensures !AheadOn(SELL)(b.asks[j], b.asks[i]) {}
  }

  /** Every state of every run from the seeded book has both sides in price-time order. */
  lemma RunIsPriceTimeOrdered(price: real, now: real, ops: seq<Op>)
    requires forall i :: 0 <= i < |ops| && ops[i].PlaceOp? ==> 0.0 <= ops[i].order.filled
    ensures PriceTimeOrdered(Run(SeedBook(price, now), ops))
  {
    hide Run, SeedBook;
    SeededRunKeepsInv(price, now, ops);
    InvIsPriceTimeOrdered(Run(SeedBook(price, now), ops));
  }

  lemma {:induction false} InsertSplits(s: seq<Entry>, x: Entry, before: (Entry, Entry) -> bool) returns (k: nat)
    ensures k <= |s| && Insert(s, x, before) == s[..k] + [x] + s[k..]
    ensures k > 0 ==> !before(x, s[k - 1])
    ensures forall i :: k <= i < |s| ==> before(x, s[i])
  {
    if s == [] || !before(x, s[|s| - 1]) {
      k := |s|;
    } else {
      k := InsertSplits(s[..|s| - 1], x, before);
    }
  }

  /** Position k of a side: the orders up to there go before an order of this price and
      priority time, the others after. */
  ghost predicate SplitsAt(own: seq<Entry>, o: Entry, k: nat) {
    forall i :: 0 <= i < |own| ==>
      (i < k <==> (own[i].price == o.price && own[i].priority <= o.priority)
                  || if o.side == BUY then own[i].price > o.price else own[i].price < o.price)
  }

  lemma SortPutsInPlace(own: seq<Entry>, o: Entry) returns (k: nat)
    requires GoodSide(own, o.side)
    ensures k <= |own| && StableSort(own + [o], AheadOn(o.side)) == own[..k] + [o] + own[k..] && SplitsAt(own, o, k)
  {
    hide StableSort, Insert;
    var before := AheadOn(o.side);
    StableSortAppend(own, o, before);
    k := InsertSplits(own, o, before);
    forall i | 0 <= i < k ensures !before(o, own[i]) {
      assert i < k - 1 ==> !before(own[k - 1], own[i]);
    }
  }

  /** What is left of an order rests behind every order that has its price and no
      later priority time, or a better price, and before all others. */
  lemma RestsInItsPlace(b: Book, o: Entry, prob: real, penalty: real, draws: nat -> real) returns (k: nat)
    requires Inv(b) && 0.0 <= o.filled && (o.side == BUY || o.side == SELL)
    requires var r := Place(b, o, prob, penalty, draws);
             r.outcome.Filled? && r.order.filled < o.qty && o.price > 0.0
    ensures var r, own := Place(b, o, prob, penalty, draws), if o.side == BUY then b.bids else b.asks;
      && k <= |own| && SplitsAt(own, o, k)
      && (if o.side == BUY then r.book.bids else r.book.asks) == own[..k] + [r.order] + own[k..]
  {
    hide Match, Crosses, StableSort, AheadOn, GoodSide, Crossed, RemoveFirst;
    var own, other := Own(b, o.side), Other(b, o.side);
    SidesAreGood(b);
    var m := Match(o, other, prob, penalty, draws, 0);
    MatchOrder(o, other, Flip(o.side), prob, penalty, draws, 0);
    k := SortPutsInPlace(own, m.order);
  }

  /** The k-th fill of an order is with the k-th resting order, at its price and
      within the order's limit, and only the last fill may leave something of it. */
  ghost predicate FillsInTurn(o: Entry, book: seq<Entry>, fills: seq<Fill>) {
    && |fills| <= |book|
    && (forall k :: 0 <= k < |fills| ==>
          && fills[k].price == book[k].price && 0.0 < fills[k].qty <= book[k].qty - book[k].filled
          && (o.side == BUY ==> fills[k].buyId == o.id && fills[k].sellId == book[k].id && book[k].price <= o.price)
          && (o.side != BUY ==> fills[k].sellId == o.id && fills[k].buyId == book[k].id && book[k].price >= o.price))
    && forall k :: 0 <= k < |fills| - 1 ==> fills[k].qty == book[k].qty - book[k].filled
  }

  lemma ShiftFills(o: Entry, book: seq<Entry>, later: seq<Fill>, fill: Fill)
    requires book != [] && o.filled < o.qty && book[0].filled < book[0].qty && Crosses(o, book[0])
    requires fill == FillOf(o, book[0], Min(o.Remaining(), book[0].Remaining()))
    requires FillsInTurn(HitOrder(o, book[0]), HitBook(o, book), later)
    requires HitOrder(o, book[0]).filled >= o.qty ==> later == []
    ensures FillsInTurn(o, book, [fill] + later)
  {
    var rest, fills := HitBook(o, book), [fill] + later;
    if later != [] {
      assert rest == book[1..];
      forall k | 0 < k < |fills| ensures fills[k] == later[k - 1] && book[k] == rest[k - 1] {}
    }
  }

  lemma {:induction false} MatchFillsInTurn(o: Entry, book: seq<Entry>, side: string, prob: real, penalty: real,
                                            draws: nat -> real, k: nat)
    requires GoodSide(book, side)
    ensures FillsInTurn(o, book, Match(o, book, prob, penalty, draws, k).fills)
    ensures o.filled >= o.qty ==> Match(o, book, prob, penalty, draws, k).fills == []
    ensures var m := Match(o, book, prob, penalty, draws, k);
      && (forall i: nat :: k <= i < k + |m.fills| ==> draws(i) <= prob)
      && (m.slipped ==> draws(k + |m.fills|) > prob)
    decreases |book|, if o.filled < o.qty then 1 else 0
  {
    hide FillsInTurn, HitOrder, HitBook, Crosses, FillOf;
    if Stops(o, book, prob, draws(k)) {
      NoFillsInTurn(o, book);
    } else {
      HitKeepsSide(o, book, side);
      HitProgress(o, book);
      MatchFillsInTurn(HitOrder(o, book[0]), HitBook(o, book), side, prob, penalty, draws, k + 1);
      var later := Match(HitOrder(o, book[0]), HitBook(o, book), prob, penalty, draws, k + 1).fills;
      ShiftFills(o, book, later, FillOf(o, book[0], Min(o.Remaining(), book[0].Remaining())));
    }
  }

  lemma NoFillsInTurn(o: Entry, book: seq<Entry>)
    ensures FillsInTurn(o, book, [])
  {
  }

  /** In a side in price-time order, a fill finds everyone entitled before it filled in full. */
  ghost predicate ServedInOrder(book: seq<Entry>, fills: seq<Fill>) {
    forall i, j :: 0 <= i < |book| && 0 <= j < |fills| && j < |book|
                   && book[i].price == book[j].price && book[i].priority < book[j].priority ==>
      i < j && fills[i].qty == book[i].qty - book[i].filled
  }

  lemma InTurnIsInOrder(o: Entry, book: seq<Entry>, fills: seq<Fill>, side: string)
    requires GoodSide(book, side) && FillsInTurn(o, book, fills)
    ensures ServedInOrder(book, fills)
  {
    forall i, j | 0 <= i < |book| && 0 <= j < |fills| && j < |book|
                  && book[i].price == book[j].price && book[i].priority < book[j].priority
      ensures i < j && fills[i].qty == book[i].qty - book[i].filled
    {
      var first, last := if i < j then i else j, if i < j then j else i;
      assert !AheadOn(side)(book[last], book[first]);
    }
  }

  lemma ReportOfPlacement(b: Book, o: Entry, prob: real, penalty: real, draws: nat -> real)
    requires o.side == BUY || o.side == SELL
    ensures var r := Place(b, o, prob, penalty, draws);
            var fills := Match(o, Other(b, o.side), prob, penalty, draws, 0).fills;
            (r.outcome.Filled? ==> r.outcome.fills == fills) && r.book.lastPrice == LastPrice(fills, b.lastPrice)
  {
    hide Match, RestResidual, RemoveFirst, LastPrice;
  }

  /** First in, first out: an order that is filled at all finds every other one at its
      price with a smaller priority time already filled in full, by this same order.
      Each fill had its draw within the fill probability; a slip is a draw beyond it. */
  lemma PlacementIsFifo(b: Book, o: Entry, prob: real, penalty: real, draws: nat -> real)
    requires Inv(b) && (o.side == BUY || o.side == SELL)
    ensures var book := if o.side == BUY then b.asks else b.bids;
            var m, r := Match(o, book, prob, penalty, draws, 0), Place(b, o, prob, penalty, draws);
      && FillsInTurn(o, book, m.fills) && ServedInOrder(book, m.fills)
      && (forall k: nat :: k < |m.fills| ==> draws(k) <= prob)
      && (m.slipped ==> draws(|m.fills|) > prob)
      && (r.outcome.Filled? ==> r.outcome.fills == m.fills)
      && r.book.lastPrice == if m.fills == [] then b.lastPrice else m.fills[|m.fills| - 1].price
  {
    hide Match, Inv, Place, GoodSide, FillsInTurn, ServedInOrder;
    var book := if o.side == BUY then b.asks else b.bids;
    SidesAreGood(b);
    MatchFillsInTurn(o, book, Flip(o.side), prob, penalty, draws, 0);
    InTurnIsInOrder(o, book, Match(o, book, prob, penalty, draws, 0).fills, Flip(o.side));
    ReportOfPlacement(b, o, prob, penalty, draws);
  }

  lemma SidesAreGood(b: Book)
    requires Inv(b)
    ensures GoodSide(b.bids, BUY) && GoodSide(b.asks, SELL)
  {
  }

  /** Matching stops at the limit: an order that did not slip is full, or nothing left
      on the other side is priced within it. */
  lemma StopsAtTheLimit(b: Book, o: Entry, prob: real, penalty: real, draws: nat -> real)
    requires Inv(b) && 0.0 <= o.filled && (o.side == BUY || o.side == SELL)
    requires var r := Place(b, o, prob, penalty, draws); r.outcome.Filled? && r.order.filled < o.qty
    ensures var r := Place(b, o, prob, penalty, draws);
      && (o.side == BUY ==> forall i :: 0 <= i < |r.book.asks| ==> r.book.asks[i].price > o.price)
      && (o.side == SELL ==> forall i :: 0 <= i < |r.book.bids| ==> r.book.bids[i].price < o.price)
  {
    hide Match;
    var other := Other(b, o.side);
    MatchOrder(o, other, Flip(o.side), prob, penalty, draws, 0);
    PlaceKeepsInv(b, o, prob, penalty, draws);
    var left := Match(o, other, prob, penalty, draws, 0).book;
    forall i | 0 <= i < |left| ensures if o.side == BUY then left[i].price > o.price else left[i].price < o.price {
      HeadIsBest(left, Flip(o.side), i);
    }
  }

  /** A slip costs an order priority time: 50, or 75 from a stress of 0.70 on. */
  lemma SlipCostsTime(b: Book, o: Entry, prob: real, stress: real, draws: nat -> real)
    requires Inv(b) && 0.0 <= o.filled && (o.side == BUY || o.side == SELL)
    ensures var r := Place(b, o, prob, SlipPenalty(stress), draws);
            r.order.priority - o.priority ==
              if !r.outcome.IntegrityViolation? then 0.0 else if stress >= 0.70 then 75.0 else 50.0
  {
    hide Match;
    var other := Other(b, o.side);
    MatchOrder(o, other, Flip(o.side), prob, SlipPenalty(stress), draws, 0);
    PlaceKeepsInv(b, o, prob, SlipPenalty(stress), draws);
  }
}
