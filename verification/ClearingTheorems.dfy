/** What the greedy walk guarantees: accounting, composition, monotonicity in size, optimality
    among all allocations, and dependence on nothing but the depth resting at each price. */
module ClearingTheorems {
  import opened Basics
  import opened Clearing
  import opened Products
  import Decimal

  lemma KeyTimes(side: Side, p: real, t: real)
    ensures Key(side, Times(p, t)) == Times(Key(side, p), t)
  {}

  lemma KeyOver(side: Side, c: real, f: real)
    requires f != 0.0
    ensures Key(side, Over(c, f)) == Over(Key(side, c), f)
  {
    OverSign(c, f);
  }

  // ---- the sort -------------------------------------------------------------------

  ghost predicate Sorted(side: Side, ls: seq<Level>) {
    forall i, j :: 0 <= i < j < |ls| ==> Key(side, ls[i].price) <= Key(side, ls[j].price)
  }

  /** The levels at one price, in their original order. */
  function AtPrice(ls: seq<Level>, p: real): seq<Level> {
    if ls == [] then [] else (if ls[0].price == p then [ls[0]] else []) + AtPrice(ls[1..], p)
  }

  lemma {:induction false} InsertSorted(side: Side, l: Level, t: seq<Level>)
    requires Sorted(side, t)
    ensures Sorted(side, Insert(side, l, t))
  {
    if t != [] && Key(side, t[0].price) < Key(side, l.price) {
      InsertSorted(side, l, t[1..]);
      InsertElements(side, l, t[1..]);
      var r := Insert(side, l, t[1..]);
      forall j | 0 <= j < |r| ensures Key(side, t[0].price) <= Key(side, r[j].price) {
        assert r[j] in multiset(r);
        assert r[j] == l || r[j] in t[1..];
      }
    }
  }

  lemma {:induction false} InsertStable(side: Side, l: Level, t: seq<Level>, p: real)
    ensures AtPrice(Insert(side, l, t), p) == AtPrice([l] + t, p)
  {
    assert ([l] + t)[1..] == t;
    if t != [] && Key(side, t[0].price) < Key(side, l.price) {
      InsertStable(side, l, t[1..], p);
      assert ([l] + t[1..])[1..] == t[1..];
      var r := Insert(side, l, t[1..]);
      assert ([t[0]] + r)[1..] == r;
    }
  }

  /** The sort orders the book for the taker and keeps levels of one price in book order. */
  lemma {:induction false} SortIsStable(side: Side, ls: seq<Level>, p: real)
    ensures Sorted(side, StableSort(side, ls))
    ensures AtPrice(StableSort(side, ls), p) == AtPrice(ls, p)
  {
    if ls != [] {
      SortIsStable(side, ls[1..], p);
      InsertSorted(side, ls[0], StableSort(side, ls[1..]));
      InsertStable(side, ls[0], StableSort(side, ls[1..]), p);
      var t := StableSort(side, ls[1..]);
      assert ([ls[0]] + t)[1..] == t;
    }
  }

  // ---- accounting -----------------------------------------------------------------

  function Depth(ls: seq<Level>): real {
    if ls == [] then 0.0 else ls[0].size + Depth(ls[1..])
  }

  lemma {:induction false} DepthPositive(ls: seq<Level>)
    requires AllLiquid(ls)
    ensures Depth(ls) >= 0.0
  {
    if ls != [] {
      assert IsLiquidity(ls[0]);
      DepthPositive(ls[1..]);
    }
  }

  lemma {:induction false} TakeIsMin(ls: seq<Level>, q: real)
    requires AllLiquid(ls) && q >= 0.0
    ensures Take(ls, q) == Min(q, Depth(ls))
  {
    DepthPositive(ls);
    if ls != [] && q > 0.0 {
      assert IsLiquidity(ls[0]);
      DepthPositive(ls[1..]);
      TakeIsMin(ls[1..], q - Min(ls[0].size, q));
    }
  }

  lemma {:induction false} DepthInsert(side: Side, l: Level, t: seq<Level>)
    ensures Depth(Insert(side, l, t)) == l.size + Depth(t)
  {
    if t != [] && Key(side, t[0].price) < Key(side, l.price) {
      DepthInsert(side, l, t[1..]);
    }
  }

  lemma {:induction false} DepthSort(side: Side, ls: seq<Level>)
    ensures Depth(StableSort(side, ls)) == Depth(ls)
  {
    if ls != [] {
      DepthSort(side, ls[1..]);
      DepthInsert(side, ls[0], StableSort(side, ls[1..]));
    }
  }

  /** No level above the walk costs less than k, so neither does the fill. */
  lemma {:induction false} CostAbove(side: Side, ls: seq<Level>, q: real, k: real)
    requires AllLiquid(ls)
    requires forall i :: 0 <= i < |ls| ==> k <= Key(side, ls[i].price)
    ensures Times(k, Take(ls, q)) <= Key(side, Cost(ls, q))
  {
    hide Times, Over;
    TimesSigns(k, 0.0);
    if ls != [] && q > 0.0 {
      assert IsLiquidity(ls[0]);
      var t := Min(ls[0].size, q);
      CostAbove(side, ls[1..], q - t, k);
      KeyTimes(side, ls[0].price, t);
      TimesMono(k, Key(side, ls[0].price), t);
      Distribute(k, t, Take(ls[1..], q - t));
    }
  }

  lemma {:induction false} WorstAbove(side: Side, ls: seq<Level>, q: real, w: real)
    requires Sorted(side, ls) && (ls != [] ==> Key(side, w) <= Key(side, ls[0].price))
    ensures Key(side, w) <= Key(side, Worst(ls, q, w))
    ensures ls != [] && q > 0.0 ==> Key(side, ls[0].price) <= Key(side, Worst(ls, q, w))
  {
    if ls != [] && q > 0.0 {
      WorstAbove(side, ls[1..], q - Min(ls[0].size, q), ls[0].price);
    }
  }

  lemma {:induction false} CostBelow(side: Side, ls: seq<Level>, q: real, w: real)
    requires AllLiquid(ls) && Sorted(side, ls)
    requires ls != [] ==> Key(side, w) <= Key(side, ls[0].price)
    ensures Key(side, Cost(ls, q)) <= Times(Key(side, Worst(ls, q, w)), Take(ls, q))
  {
    hide Times, Over;
    TimesSigns(Key(side, Worst(ls, q, w)), 0.0);
    if ls != [] && q > 0.0 {
      assert IsLiquidity(ls[0]);
      var t := Min(ls[0].size, q);
      var k := Key(side, Worst(ls, q, w));
      CostBelow(side, ls[1..], q - t, ls[0].price);
      WorstAbove(side, ls, q, w);
      KeyTimes(side, ls[0].price, t);
      TimesMono(Key(side, ls[0].price), k, t);
      Distribute(k, t, Take(ls[1..], q - t));
    }
  }

  /** A fill costs exactly its size at key k only when no level beyond k was touched. */
  lemma {:induction false} CostAtTouch(side: Side, ls: seq<Level>, q: real, k: real)
    requires ls != [] && q > 0.0 && AllLiquid(ls) && Sorted(side, ls) && k <= Key(side, ls[0].price)
    ensures Key(side, Cost(ls, q)) == Times(k, Take(ls, q)) <==> Key(side, Worst(ls, q, ls[0].price)) == k
  {
    hide Times, Over;
    assert IsLiquidity(ls[0]);
    var t := Min(ls[0].size, q);
    var rest, k0 := ls[1..], Key(side, ls[0].price);
    KeyTimes(side, ls[0].price, t);
    Distribute(k, t, Take(rest, q - t));
    TimesMono(k, k0, t);
    CostAbove(side, rest, q - t, k);
    TakePositive(rest, q - t);
    if rest != [] && q - t > 0.0 {
      CostAtTouch(side, rest, q - t, k);
      WorstAbove(side, rest, q - t, ls[0].price);
    } else {
      assert Take(rest, q - t) == 0.0 && Cost(rest, q - t) == 0.0;
      TimesSigns(k, 0.0);
    }
  }

  /** The average in the taker's direction, and slippage measured from it. */
  lemma {:induction false} QuoteInKeys(side: Side, ls: seq<Level>, q: real)
    requires ls != [] && AllLiquid(ls) && q > 0.0 && !side.Other?
    ensures var e := QuoteOf(side, ls, q);
            e.filled > 0.0 && Key(side, e.average) == Over(Key(side, Cost(ls, q)), e.filled)
            && e.slippage == Over((Key(side, e.average) - Key(side, ls[0].price)) * 10000.0, ls[0].price)
  {
    hide Times, Over;
    TakePositive(ls, q);
    KeyOver(side, Cost(ls, q), Take(ls, q));
  }

  lemma SortedAccounting(side: Side, ls: seq<Level>, q: real)
    requires ls != [] && AllLiquid(ls) && Sorted(side, ls) && q > 0.0 && !side.Other?
    ensures var e := QuoteOf(side, ls, q); var touch := ls[0].price;
            && e.filled == Min(q, Depth(ls)) && e.filled > 0.0
            && (e.fully <==> Depth(ls) >= q)
            && Key(side, touch) <= Key(side, e.average) <= Key(side, e.worst)
            && Times(e.slippage, touch) == (Key(side, e.average) - Key(side, touch)) * 10000.0
            && e.slippage >= 0.0
            && (e.slippage == 0.0 <==> e.worst == touch)
  {
    hide Times, Over;
    assert IsLiquidity(ls[0]);
    var k := Key(side, ls[0].price);
    TakeIsMin(ls, q);
    var e := QuoteOf(side, ls, q);
    QuoteInKeys(side, ls, q);
    CostAbove(side, ls, q, k);
    CostBelow(side, ls, q, ls[0].price);
    CostAtTouch(side, ls, q, k);
    OverBetween(k, Key(side, Cost(ls, q)), Key(side, e.worst), e.filled);
    OverTimes((Key(side, e.average) - k) * 10000.0, ls[0].price);
    SlippageSign(Key(side, e.average) - k, ls[0].price);
  }

  lemma SlippageSign(d: real, touch: real)
    requires touch > 0.0 && d >= 0.0
    ensures Over(d * 10000.0, touch) >= 0.0
    ensures Over(d * 10000.0, touch) == 0.0 <==> d == 0.0
  {
    hide Times, Over;
    var s := Over(d * 10000.0, touch);
    OverTimes(d * 10000.0, touch);
    TimesSigns(s, touch);
    TimesSigns(-s, touch);
    TimesSigns(touch, 0.0);
  }

  /** Whatever is asked of a book: it fills the smaller of size and depth, fully exactly when the
      depth suffices; the average lies between touch and worst price; slippage is the average's
      distance from the touch in basis points of the touch, never negative, and zero exactly when
      nothing was taken beyond the touch. */
  lemma WalkAccounting(side: Side, book: seq<Level>, q: real)
    requires book != [] && AllLiquid(book) && q > 0.0 && !side.Other?
    ensures QuoteBook(side, book, q).Some? && StableSort(side, book) != []
    ensures var e := QuoteBook(side, book, q).value; var touch := StableSort(side, book)[0].price;
            && e.filled == Min(q, Depth(book)) && e.filled > 0.0
            && (e.fully <==> Depth(book) >= q)
            && (forall i :: 0 <= i < |book| ==> Key(side, touch) <= Key(side, book[i].price))
            && Key(side, touch) <= Key(side, e.average) <= Key(side, e.worst)
            && Times(e.slippage, touch) == (Key(side, e.average) - Key(side, touch)) * 10000.0
            && e.slippage >= 0.0
            && (e.slippage == 0.0 <==> e.worst == touch)
  {
    hide Times, Over;
    TouchIsBest(side, book);
    SortElements(side, book);
    DepthSort(side, book);
    SortedAccounting(side, StableSort(side, book), q);
  }

  lemma TouchIsBest(side: Side, book: seq<Level>)
    requires book != []
    ensures StableSort(side, book) != [] && Sorted(side, StableSort(side, book))
    ensures forall i :: 0 <= i < |book| ==>
              Key(side, StableSort(side, book)[0].price) <= Key(side, book[i].price)
  {
    var ls := StableSort(side, book);
    SortElements(side, book);
    SortIsStable(side, book, 0.0);
    assert |multiset(ls)| == |multiset(book)|;
    forall i | 0 <= i < |book| ensures Key(side, ls[0].price) <= Key(side, book[i].price) {
      assert book[i] in multiset(book);
      assert book[i] in ls;
    }
  }

  // ---- composition ----------------------------------------------------------------

  /** The book left after filling q. */
  function Residual(ls: seq<Level>, q: real): seq<Level> {
    if ls == [] || q <= 0.0 then ls
    else if ls[0].size <= q then Residual(ls[1..], q - ls[0].size)
    else [Level(ls[0].price, ls[0].size - q)] + ls[1..]
  }

  /** Composition when the first level alone covers q1. */
  lemma FirstLevelComposes(ls: seq<Level>, q1: real, q2: real, w: real)
    requires AllLiquid(ls) && ls != [] && 0.0 < q1 < ls[0].size && q2 >= 0.0
    ensures var r := Residual(ls, q1);
            && AllLiquid(r) && r != []
            && Take(ls, q1) == q1 && Take(ls, q1 + q2) == q1 + Take(r, q2)
            && Cost(ls, q1 + q2) == Cost(ls, q1) + Cost(r, q2)
            && Worst(ls, q1, w) == ls[0].price
            && (q2 > 0.0 ==> Worst(ls, q1 + q2, w) == Worst(r, q2, w))
  {
    hide Times, Over;
    var r, p, s := Residual(ls, q1), ls[0].price, ls[0].size;
    assert IsLiquidity(ls[0]);
    assert r[0] == Level(p, s - q1) && r[1..] == ls[1..];
    assert Min(s, q1 + q2) == q1 + Min(s - q1, q2);
    TimesSigns(p, 0.0);
    Distribute(p, q1, Min(s - q1, q2));
    assert Cost(ls[1..], 0.0) == 0.0 && Take(ls[1..], 0.0) == 0.0;
    assert Cost(ls, q1) == Times(p, q1);
  }

  /** Filling q1 and then q2 against what is left is filling q1 + q2 at once. */
  lemma {:induction false} WalkComposition(ls: seq<Level>, q1: real, q2: real, w: real)
    requires AllLiquid(ls) && q1 >= 0.0 && q2 >= 0.0
    ensures var r := Residual(ls, q1);
            && AllLiquid(r)
            && Take(ls, q1 + q2) == Take(ls, q1) + Take(r, q2)
            && Cost(ls, q1 + q2) == Cost(ls, q1) + Cost(r, q2)
            && Worst(ls, q1 + q2, w) == if Take(r, q2) > 0.0 then Worst(r, q2, w) else Worst(ls, q1, w)
  {
    hide Times, Over;
    var r := Residual(ls, q1);
    if ls == [] || q1 <= 0.0 {
      TakePositive(ls, q2);
    } else if q1 < ls[0].size {
      FirstLevelComposes(ls, q1, q2, w);
      TakePositive(r, q2);
    } else {
      assert IsLiquidity(ls[0]);
      var p, s := ls[0].price, ls[0].size;
      WalkComposition(ls[1..], q1 - s, q2, p);
      TakePositive(r, q2);
      assert q1 + q2 - s == (q1 - s) + q2;
      if Take(r, q2) > 0.0 {
        WorstDefault(r, q2, p, w);
      }
    }
  }

  lemma WorstDefault(ls: seq<Level>, q: real, v: real, w: real)
    requires ls != [] && q > 0.0
    ensures Worst(ls, q, v) == Worst(ls, q, w)
  {}

  // ---- monotonicity in size -------------------------------------------------------

  lemma {:induction false} ResidualAbove(side: Side, ls: seq<Level>, q: real, w: real)
    requires AllLiquid(ls) && Sorted(side, ls)
    requires ls != [] ==> Key(side, w) <= Key(side, ls[0].price)
    ensures Sorted(side, Residual(ls, q))
    ensures forall i :: 0 <= i < |Residual(ls, q)| ==>
              Key(side, Worst(ls, q, w)) <= Key(side, Residual(ls, q)[i].price)
  {
    if ls != [] && q > 0.0 {
      if ls[0].size <= q {
        ResidualAbove(side, ls[1..], q - ls[0].size, ls[0].price);
      } else {
        assert Worst(ls, q, w) == ls[0].price;
      }
    }
  }

  lemma SortedQuoteMonotone(side: Side, ls: seq<Level>, q1: real, q2: real)
    requires ls != [] && AllLiquid(ls) && Sorted(side, ls) && 0.0 < q1 <= q2 && !side.Other?
    ensures var a, b := QuoteOf(side, ls, q1), QuoteOf(side, ls, q2);
            && a.filled <= b.filled
            && Key(side, a.average) <= Key(side, b.average)
            && Key(side, a.worst) <= Key(side, b.worst)
            && a.slippage <= b.slippage
  {
    hide Times, Over;
    assert IsLiquidity(ls[0]);
    var w, d := ls[0].price, q2 - q1;
    var worst, r := Worst(ls, q1, w), Residual(ls, q1);
    WalkComposition(ls, q1, d, w);
    assert q1 + d == q2;
    TakePositive(r, d);
    QuoteInKeys(side, ls, q1);
    QuoteInKeys(side, ls, q2);
    ResidualAbove(side, ls, q1, w);
    assert Key(side, Over(Cost(ls, q1), Take(ls, q1))) <= Key(side, Over(Cost(ls, q2), Take(ls, q2))) by {
      CostBelow(side, ls, q1, w);
      CostAbove(side, r, d, Key(side, worst));
      AverageRises(Key(side, Cost(ls, q1)), Take(ls, q1), Key(side, Cost(r, d)), Take(r, d), Key(side, worst));
      assert Key(side, Cost(ls, q2)) == Key(side, Cost(ls, q1)) + Key(side, Cost(r, d));
    }
    if Take(r, d) > 0.0 {
      WorstAbove(side, r, d, worst);
      WorstDefault(r, d, w, worst);
    }
    OverMono((Key(side, QuoteOf(side, ls, q1).average) - Key(side, w)) * 10000.0,
             (Key(side, QuoteOf(side, ls, q2).average) - Key(side, w)) * 10000.0, w);
  }

  /** On a fixed book, asking for more never lowers fill or slippage, and never improves the
      average or the worst price for the taker. */
  lemma QuoteMonotone(side: Side, book: seq<Level>, q1: real, q2: real)
    requires book != [] && AllLiquid(book) && 0.0 < q1 <= q2 && !side.Other?
    ensures QuoteBook(side, book, q1).Some? && QuoteBook(side, book, q2).Some?
    ensures var a, b := QuoteBook(side, book, q1).value, QuoteBook(side, book, q2).value;
            && a.filled <= b.filled
            && Key(side, a.average) <= Key(side, b.average)
            && Key(side, a.worst) <= Key(side, b.worst)
            && a.slippage <= b.slippage
  {
    hide Times, Over;
    SortElements(side, book);
    TouchIsBest(side, book);
    SortedQuoteMonotone(side, StableSort(side, book), q1, q2);
  }

  // ---- optimality -----------------------------------------------------------------

  function Sum(x: seq<real>): real { if x == [] then 0.0 else x[0] + Sum(x[1..]) }

  /** What buying x[i] at each level costs (or selling, earns). */
  function Spend(ls: seq<Level>, x: seq<real>): real
    requires |x| == |ls|
  {
    if ls == [] then 0.0 else Times(ls[0].price, x[0]) + Spend(ls[1..], x[1..])
  }

  /** Any way to take a total from the levels without exceeding any of them. */
  ghost predicate Allocation(ls: seq<Level>, x: seq<real>, total: real) {
    && |x| == |ls|
    && (forall i :: 0 <= i < |x| ==> 0.0 <= x[i] <= ls[i].size)
    && Sum(x) == total
  }

  function Gap(k: real, ki: real): real { if ki < k then k - ki else 0.0 }

  /** How much the levels better than k save against paying k throughout. */
  function Savings(side: Side, ls: seq<Level>, k: real): real {
    if ls == [] then 0.0
    else Times(Gap(k, Key(side, ls[0].price)), ls[0].size) + Savings(side, ls[1..], k)
  }

  lemma {:induction false} NoSavings(side: Side, ls: seq<Level>, k: real)
    requires forall i :: 0 <= i < |ls| ==> k <= Key(side, ls[i].price)
    ensures Savings(side, ls, k) == 0.0
  {
    hide Times, Over;
    if ls != [] {
      TimesSigns(ls[0].size, 0.0);
      NoSavings(side, ls[1..], k);
    }
  }

  lemma {:induction false} SavingsInsert(side: Side, l: Level, t: seq<Level>, k: real)
    ensures Savings(side, Insert(side, l, t), k)
         == Times(Gap(k, Key(side, l.price)), l.size) + Savings(side, t, k)
  {
    hide Times, Over;
    if t != [] && Key(side, t[0].price) < Key(side, l.price) {
      SavingsInsert(side, l, t[1..], k);
      var r := Insert(side, l, t[1..]);
      assert ([t[0]] + r)[1..] == r;
    } else {
      assert ([l] + t)[1..] == t;
    }
  }

  lemma {:induction false} SavingsSort(side: Side, ls: seq<Level>, k: real)
    ensures Savings(side, StableSort(side, ls), k) == Savings(side, ls, k)
  {
    hide Times, Over;
    if ls != [] {
      SavingsSort(side, ls[1..], k);
      SavingsInsert(side, ls[0], StableSort(side, ls[1..]), k);
    }
  }

  /** No allocation beats paying k throughout by more than the savings available at k. */
  lemma {:induction false} AllocationBound(side: Side, ls: seq<Level>, x: seq<real>, k: real)
    requires Allocation(ls, x, Sum(x))
    ensures Times(k, Sum(x)) - Savings(side, ls, k) <= Key(side, Spend(ls, x))
  {
    hide Times, Over;
    TimesSigns(k, 0.0);
    if ls != [] {
      AllocationBound(side, ls[1..], x[1..], k);
      var ki := Key(side, ls[0].price);
      var g := Gap(k, ki);
      KeyTimes(side, ls[0].price, x[0]);
      Distribute(k, x[0], Sum(x[1..]));
      TimesSigns(g, ls[0].size - x[0]);
      Distribute(g, ls[0].size - x[0], x[0]);
      TimesMono(k - g, ki, x[0]);
      Distribute(x[0], k - g, g);
    }
  }

  /** The walk saves everything there is to save against its worst price. */
  lemma {:induction false} WalkSaves(side: Side, ls: seq<Level>, q: real)
    requires ls != [] && q > 0.0 && AllLiquid(ls) && Sorted(side, ls)
    ensures var k := Key(side, Worst(ls, q, ls[0].price));
            Key(side, Cost(ls, q)) == Times(k, Take(ls, q)) - Savings(side, ls, k)
  {
    hide Times, Over;
    assert IsLiquidity(ls[0]);
    var t, rest := Min(ls[0].size, q), ls[1..];
    var k, k0 := Key(side, Worst(ls, q, ls[0].price)), Key(side, ls[0].price);
    KeyTimes(side, ls[0].price, t);
    if rest != [] && q - t > 0.0 {
      WorstDefault(rest, q - t, ls[0].price, rest[0].price);
      WalkSaves(side, rest, q - t);
      WorstAbove(side, rest, q - t, rest[0].price);
      Distribute(k, t, Take(rest, q - t));
      Distribute(t, k - k0, k0);
    } else {
      NoSavings(side, ls, k0);
    }
  }

  /** No way of taking the filled size from the book is cheaper for a buyer, or earns a seller
      more, than the greedy walk. */
  lemma GreedyOptimal(side: Side, book: seq<Level>, q: real, x: seq<real>)
    requires AllLiquid(book) && book != [] && q > 0.0
    requires Allocation(book, x, Take(StableSort(side, book), q))
    ensures Key(side, Cost(StableSort(side, book), q)) <= Key(side, Spend(book, x))
  {
    hide Times, Over;
    var ls := StableSort(side, book);
    SortElements(side, book);
    TouchIsBest(side, book);
    var k := Key(side, Worst(ls, q, ls[0].price));
    WalkSaves(side, ls, q);
    SavingsSort(side, book, k);
    AllocationBound(side, book, x, k);
  }

  function Greedy(ls: seq<Level>, q: real): (x: seq<real>)
    ensures |x| == |ls|
  {
    if ls == [] then []
    else if q <= 0.0 then [0.0] + Greedy(ls[1..], q)
    else var t := Min(ls[0].size, q); [t] + Greedy(ls[1..], q - t)
  }

  lemma {:induction false} GreedyAllocates(ls: seq<Level>, q: real)
    requires AllLiquid(ls)
    ensures Allocation(ls, Greedy(ls, q), Take(ls, q))
    ensures Spend(ls, Greedy(ls, q)) == Cost(ls, q)
  {
    hide Times, Over;
    if ls != [] {
      assert IsLiquidity(ls[0]);
      TimesSigns(ls[0].price, 0.0);
      GreedyAllocates(ls[1..], if q <= 0.0 then q else q - Min(ls[0].size, q));
    }
  }

  /** An allocation of a list with l inserted, seen with l's share in front. */
  lemma {:induction false} UnInsert(side: Side, l: Level, t: seq<Level>, y: seq<real>) returns (x: seq<real>)
    requires Allocation(Insert(side, l, t), y, Sum(y))
    ensures Allocation([l] + t, x, Sum(y)) && Spend([l] + t, x) == Spend(Insert(side, l, t), y)
  {
    hide Times, Over;
    if t != [] && Key(side, t[0].price) < Key(side, l.price) {
      var r := Insert(side, l, t[1..]);
      assert ([t[0]] + r)[1..] == r;
      var z := UnInsert(side, l, t[1..], y[1..]);
      assert ([l] + t[1..])[1..] == t[1..] && ([l] + t)[1..] == t;
      x := [z[0], y[0]] + z[1..];
      assert x[1..] == [y[0]] + z[1..] && x[1..][1..] == z[1..];
      assert Sum(z) == z[0] + Sum(z[1..]);
      assert Sum(x) == z[0] + (y[0] + Sum(z[1..]));
    } else {
      x := y;
    }
  }

  lemma {:induction false} UnSort(side: Side, ls: seq<Level>, y: seq<real>) returns (x: seq<real>)
    requires Allocation(StableSort(side, ls), y, Sum(y))
    ensures Allocation(ls, x, Sum(y)) && Spend(ls, x) == Spend(StableSort(side, ls), y)
  {
    hide Times, Over;
    if ls == [] {
      x := y;
    } else {
      var t := StableSort(side, ls[1..]);
      var z := UnInsert(side, ls[0], t, y);
      assert ([ls[0]] + t)[1..] == t;
      var v := UnSort(side, ls[1..], z[1..]);
      x := [z[0]] + v;
      assert x[1..] == v;
    }
  }

  /** The bound is met: the walk's cost is one such allocation of the book itself. */
  lemma GreedyAttained(side: Side, book: seq<Level>, q: real) returns (x: seq<real>)
    requires AllLiquid(book)
    ensures Allocation(book, x, Take(StableSort(side, book), q))
    ensures Spend(book, x) == Cost(StableSort(side, book), q)
  {
    hide Times, Over;
    SortElements(side, book);
    GreedyAllocates(StableSort(side, book), q);
    x := UnSort(side, book, Greedy(StableSort(side, book), q));
  }

  /** The quoted average is the best average price at which the filled size can be had from the
      book: some allocation has it, and none has a better one. */
  lemma QuotedAverageIsBest(side: Side, book: seq<Level>, q: real) returns (best: seq<real>)
    requires AllLiquid(book) && book != [] && q > 0.0 && !side.Other?
    ensures QuoteBook(side, book, q).Some? && QuoteBook(side, book, q).value.filled > 0.0
    ensures var e := QuoteBook(side, book, q).value;
            && Allocation(book, best, e.filled) && e.average == Over(Spend(book, best), e.filled)
            && forall x :: Allocation(book, x, e.filled) ==>
                 Key(side, e.average) <= Key(side, Over(Spend(book, x), e.filled))
  {
    hide Times, Over;
    WalkAccounting(side, book, q);
    best := GreedyAttained(side, book, q);
    var e := QuoteBook(side, book, q).value;
    forall x | Allocation(book, x, e.filled)
      ensures Key(side, e.average) <= Key(side, Over(Spend(book, x), e.filled))
    {
      GreedyOptimal(side, book, q, x);
      KeyOver(side, Spend(book, x), e.filled);
      KeyOver(side, Spend(book, best), e.filled);
      OverMono(Key(side, Spend(book, best)), Key(side, Spend(book, x)), e.filled);
    }
  }

  // ---- what a book is, to the estimate --------------------------------------------

  /** Total size resting at price p. */
  function DepthAt(ls: seq<Level>, p: real): real {
    if ls == [] then 0.0 else (if ls[0].price == p then ls[0].size else 0.0) + DepthAt(ls[1..], p)
  }

  ghost predicate SameDepth(a: seq<Level>, b: seq<Level>) {
    forall p :: DepthAt(a, p) == DepthAt(b, p)
  }

  /** One level per price: neighbours of equal price merged. */
  function Merged(ls: seq<Level>): (m: seq<Level>)
    ensures ls != [] ==> m != [] && m[0].price == ls[0].price
  {
    if |ls| <= 1 then ls
    else
      var m := Merged(ls[1..]);
      if m[0].price == ls[0].price then [Level(ls[0].price, ls[0].size + m[0].size)] + m[1..]
      else [ls[0]] + m
  }

  ghost predicate Strict(side: Side, ls: seq<Level>) {
    forall i, j :: 0 <= i < j < |ls| ==> Key(side, ls[i].price) < Key(side, ls[j].price)
  }

  lemma StrictCons(side: Side, l: Level, m: seq<Level>)
    requires Strict(side, m) && (m != [] ==> Key(side, l.price) < Key(side, m[0].price))
    ensures Strict(side, [l] + m)
  {}

  lemma StrictHead(side: Side, l: Level, m: seq<Level>)
    requires m != [] && Strict(side, m) && l.price == m[0].price
    ensures Strict(side, [l] + m[1..])
  {}

  lemma {:induction false} MergedStrict(side: Side, ls: seq<Level>)
    requires Sorted(side, ls)
    ensures Strict(side, Merged(ls))
  {
    if |ls| > 1 {
      var m := Merged(ls[1..]);
      MergedStrict(side, ls[1..]);
      assert Key(side, ls[0].price) <= Key(side, ls[1].price);
      if m[0].price == ls[0].price {
        StrictHead(side, Level(ls[0].price, ls[0].size + m[0].size), m);
      } else {
        StrictCons(side, ls[0], m);
      }
    }
  }

  lemma {:induction false} MergedDepth(ls: seq<Level>, p: real)
    ensures DepthAt(Merged(ls), p) == DepthAt(ls, p)
  {
    if |ls| > 1 {
      MergedDepth(ls[1..], p);
      var m := Merged(ls[1..]);
      assert ([ls[0]] + m)[1..] == m;
      assert ([Level(ls[0].price, ls[0].size + m[0].size)] + m[1..])[1..] == m[1..];
    }
  }

  /** Merging equal prices changes no walk. */
  lemma {:induction false} MergedWalk(ls: seq<Level>, q: real, w: real)
    requires AllLiquid(ls)
    ensures Take(Merged(ls), q) == Take(ls, q) && Cost(Merged(ls), q) == Cost(ls, q)
    ensures Worst(Merged(ls), q, w) == Worst(ls, q, w)
  {
    hide Times, Over;
    if |ls| > 1 && q > 0.0 {
      var m, p, s := Merged(ls[1..]), ls[0].price, ls[0].size;
      assert IsLiquidity(ls[0]) && IsLiquidity(ls[1]);
      MergedWalk(ls[1..], q - Min(s, q), p);
      assert ([ls[0]] + m)[1..] == m;
      if m[0].price == p {
        var c := [Level(p, s + m[0].size)] + m[1..];
        assert c[1..] == m[1..];
        MergedLiquid(ls[1..]);
        assert IsLiquidity(m[0]);
        Distribute(p, s, Min(m[0].size, q - s));
        assert q > s ==> Min(s + m[0].size, q) == s + Min(m[0].size, q - s);
      }
    }
  }

  lemma {:induction false} MergedLiquid(ls: seq<Level>)
    requires AllLiquid(ls)
    ensures AllLiquid(Merged(ls))
  {
    if |ls| > 1 {
      assert IsLiquidity(ls[0]);
      MergedLiquid(ls[1..]);
      assert IsLiquidity(Merged(ls[1..])[0]);
    }
  }

  lemma {:induction false} InsertDepth(side: Side, l: Level, t: seq<Level>, p: real)
    ensures DepthAt(Insert(side, l, t), p) == DepthAt([l] + t, p)
  {
    assert ([l] + t)[1..] == t;
    if t != [] && Key(side, t[0].price) < Key(side, l.price) {
      InsertDepth(side, l, t[1..], p);
      assert ([l] + t[1..])[1..] == t[1..];
      var r := Insert(side, l, t[1..]);
      assert ([t[0]] + r)[1..] == r;
    }
  }

  lemma {:induction false} SortDepth(side: Side, ls: seq<Level>, p: real)
    ensures DepthAt(StableSort(side, ls), p) == DepthAt(ls, p)
  {
    if ls != [] {
      var t := StableSort(side, ls[1..]);
      SortDepth(side, ls[1..], p);
      InsertDepth(side, ls[0], t, p);
      assert ([ls[0]] + t)[1..] == t;
    }
  }

  /** Total size resting at a better price than one of key k. */
  function DepthBelow(side: Side, ls: seq<Level>, k: real): real {
    if ls == [] then 0.0
    else (if Key(side, ls[0].price) < k then ls[0].size else 0.0) + DepthBelow(side, ls[1..], k)
  }

  lemma {:induction false} InsertBelow(side: Side, l: Level, t: seq<Level>, k: real)
    ensures DepthBelow(side, Insert(side, l, t), k) == DepthBelow(side, [l] + t, k)
  {
    assert ([l] + t)[1..] == t;
    if t != [] && Key(side, t[0].price) < Key(side, l.price) {
      InsertBelow(side, l, t[1..], k);
      assert ([l] + t[1..])[1..] == t[1..];
      var r := Insert(side, l, t[1..]);
      assert ([t[0]] + r)[1..] == r;
    }
  }

  lemma {:induction false} SortBelow(side: Side, ls: seq<Level>, k: real)
    ensures DepthBelow(side, StableSort(side, ls), k) == DepthBelow(side, ls, k)
  {
    if ls != [] {
      var t := StableSort(side, ls[1..]);
      SortBelow(side, ls[1..], k);
      InsertBelow(side, ls[0], t, k);
      assert ([ls[0]] + t)[1..] == t;
    }
  }

  lemma {:induction false} NothingBelow(side: Side, ls: seq<Level>, k: real)
    requires forall i :: 0 <= i < |ls| ==> k <= Key(side, ls[i].price)
    ensures DepthBelow(side, ls, k) == 0.0
  {
    if ls != [] {
      NothingBelow(side, ls[1..], k);
    }
  }

  lemma {:induction false} SortedMarginal(side: Side, ls: seq<Level>, q: real)
    requires ls != [] && q > 0.0 && AllLiquid(ls) && Sorted(side, ls)
    ensures var w := Worst(ls, q, ls[0].price); var below := DepthBelow(side, ls, Key(side, w));
            below < Take(ls, q) <= below + DepthAt(ls, w)
  {
    assert IsLiquidity(ls[0]);
    var t, rest, k0 := Min(ls[0].size, q), ls[1..], Key(side, ls[0].price);
    NothingBelow(side, ls, k0);
    DepthNonNegative(rest, ls[0].price);
    if rest != [] && q - t > 0.0 {
      WorstDefault(rest, q - t, ls[0].price, rest[0].price);
      SortedMarginal(side, rest, q - t);
      WorstAbove(side, rest, q - t, rest[0].price);
      NothingBelow(side, rest, k0);
    } else {
      assert Take(rest, q - t) == 0.0;
    }
  }

  /** The worst price is the marginal one: the size resting at better prices is not enough for the
      fill, and together with the size at that price it is. */
  lemma WorstIsMarginal(side: Side, book: seq<Level>, q: real)
    requires AllLiquid(book) && book != [] && q > 0.0
    ensures QuoteBook(side, book, q).Some?
    ensures var e := QuoteBook(side, book, q).value; var below := DepthBelow(side, book, Key(side, e.worst));
            below < e.filled <= below + DepthAt(book, e.worst)
  {
    hide Times, Over;
    SortElements(side, book);
    TouchIsBest(side, book);
    var ls := StableSort(side, book);
    SortedMarginal(side, ls, q);
    var w := Worst(ls, q, ls[0].price);
    SortBelow(side, book, Key(side, w));
    SortDepth(side, book, w);
  }

  lemma {:induction false} DepthNonNegative(ls: seq<Level>, p: real)
    requires AllLiquid(ls)
    ensures DepthAt(ls, p) >= 0.0
    ensures (forall i :: 0 <= i < |ls| ==> ls[i].price != p) ==> DepthAt(ls, p) == 0.0
  {
    if ls != [] {
      assert IsLiquidity(ls[0]);
      DepthNonNegative(ls[1..], p);
    }
  }

  /** The canonical form of a book: sorted, one level per price. */
  function Canonical(side: Side, book: seq<Level>): seq<Level> { Merged(StableSort(side, book)) }

  lemma CanonicalForm(side: Side, book: seq<Level>)
    requires AllLiquid(book)
    ensures Strict(side, Canonical(side, book)) && AllLiquid(Canonical(side, book))
    ensures SameDepth(Canonical(side, book), book)
  {
    SortElements(side, book);
    SortIsStable(side, book, 0.0);
    MergedStrict(side, StableSort(side, book));
    MergedLiquid(StableSort(side, book));
    forall p ensures DepthAt(Canonical(side, book), p) == DepthAt(book, p) {
      SortDepth(side, book, p);
      MergedDepth(StableSort(side, book), p);
    }
  }

  lemma FirstDepth(a: seq<Level>)
    requires a != [] && AllLiquid(a)
    ensures DepthAt(a, a[0].price) > 0.0
  {
    assert IsLiquidity(a[0]);
    DepthNonNegative(a[1..], a[0].price);
  }

  lemma {:induction false} CanonicalUnique(side: Side, a: seq<Level>, b: seq<Level>)
    requires Strict(side, a) && Strict(side, b) && AllLiquid(a) && AllLiquid(b) && SameDepth(a, b)
    ensures a == b
  {
    if a == [] || b == [] {
      if a != [] {
        FirstDepth(a);
      }
      if b != [] {
        FirstDepth(b);
      }
    } else {
      assert IsLiquidity(a[0]) && IsLiquidity(b[0]);
      FirstPrice(side, a, b);
      FirstPrice(side, b, a);
      var p := a[0].price;
      assert DepthAt(a, p) == DepthAt(b, p);
      DepthNonNegative(a[1..], p);
      DepthNonNegative(b[1..], p);
      forall x ensures DepthAt(a[1..], x) == DepthAt(b[1..], x) {
        assert DepthAt(a, x) == DepthAt(b, x);
      }
      CanonicalUnique(side, a[1..], b[1..]);
    }
  }

  lemma FirstPrice(side: Side, a: seq<Level>, b: seq<Level>)
    requires a != [] && b != [] && Strict(side, b) && AllLiquid(a) && AllLiquid(b) && SameDepth(a, b)
    ensures Key(side, b[0].price) <= Key(side, a[0].price)
  {
    assert IsLiquidity(a[0]);
    DepthNonNegative(a[1..], a[0].price);
    assert DepthAt(a, a[0].price) == DepthAt(b, a[0].price);
    if Key(side, a[0].price) < Key(side, b[0].price) {
      DepthNonNegative(b, a[0].price);
    }
  }

  /** Fill and worst price agree at every size. */
  ghost predicate SameWalks(a: seq<Level>, b: seq<Level>) {
    forall q :: q > 0.0 ==> SameWalk(a, b, q)
  }

  predicate SameWalk(a: seq<Level>, b: seq<Level>, q: real) {
    Take(a, q) == Take(b, q) && (Take(a, q) > 0.0 ==> Worst(a, q, 0.0) == Worst(b, q, 0.0))
  }

  lemma {:induction false} WalksDetermineBook(side: Side, a: seq<Level>, b: seq<Level>)
    requires Strict(side, a) && Strict(side, b) && AllLiquid(a) && AllLiquid(b) && SameWalks(a, b)
    ensures a == b
    decreases |a|
  {
    TakePositive(a, 1.0);
    TakePositive(b, 1.0);
    assert SameWalk(a, b, 1.0);
    if a != [] {
      forall q | q > 0.0 ensures SameWalk(b, a, q) {
        assert SameWalk(a, b, q);
      }
      FirstLevel(side, a, b);
      FirstLevel(side, b, a);
      forall q | q > 0.0 ensures SameWalk(a[1..], b[1..], q) {
        assert SameWalk(a, b, q + a[0].size);
        assert IsLiquidity(a[0]) && IsLiquidity(b[0]);
        var s := a[0].size;
        assert q + s - Min(s, q + s) == q;
        TakePositive(a[1..], q);
        TakePositive(b[1..], q);
        if Take(a[1..], q) > 0.0 {
          WorstDefault(a[1..], q, a[0].price, 0.0);
          WorstDefault(b[1..], q, b[0].price, 0.0);
        }
      }
      WalksDetermineBook(side, a[1..], b[1..]);
    }
  }

  lemma FirstLevel(side: Side, a: seq<Level>, b: seq<Level>)
    requires a != [] && b != [] && Strict(side, a) && AllLiquid(a) && AllLiquid(b)
    requires SameWalks(a, b)
    ensures a[0].price == b[0].price && b[0].size <= a[0].size
  {
    assert IsLiquidity(a[0]) && IsLiquidity(b[0]);
    var q := Min(a[0].size, b[0].size);
    assert SameWalk(a, b, q);
    TakePositive(a, q);
    assert Worst(a, q, 0.0) == a[0].price && Worst(b, q, 0.0) == b[0].price by {
      assert q - Min(a[0].size, q) == 0.0 && q - Min(b[0].size, q) == 0.0;
    }
    if a[0].size < b[0].size {
      var s := b[0].size;
      assert SameWalk(a, b, s);
      TakePositive(a, s);
      TakePositive(a[1..], s - a[0].size);
      assert |a| > 1 ==> Key(side, a[0].price) < Key(side, a[1].price);
      assert Min(b[0].size, s) == s && Take(b[1..], 0.0) == 0.0;
      assert Take(b, s) == s && Worst(b, s, 0.0) == b[0].price;
      assert Worst(a, s, 0.0) == Worst(a[1..], s - a[0].size, a[0].price);
      assert a[1..] != [];
      assert Sorted(side, a[1..]);
      WorstAbove(side, a[1..], s - a[0].size, a[0].price);
    }
  }

  lemma QuoteCongruent(side: Side, a: seq<Level>, b: seq<Level>, q: real)
    requires a != [] && b != [] && AllLiquid(a) && AllLiquid(b) && q > 0.0
    requires a[0].price == b[0].price && Take(a, q) == Take(b, q) && Cost(a, q) == Cost(b, q)
    requires Worst(a, q, a[0].price) == Worst(b, q, b[0].price)
    ensures QuoteOf(side, a, q) == QuoteOf(side, b, q)
  {
    hide Times, Over;
    TakePositive(a, q);
    assert IsLiquidity(a[0]);
  }

  lemma QuoteOfCanonical(side: Side, book: seq<Level>, q: real)
    requires AllLiquid(book) && q > 0.0
    ensures AllLiquid(Canonical(side, book))
    ensures var c := Canonical(side, book);
            QuoteBook(side, book, q) == if c == [] then None else Some(QuoteOf(side, c, q))
  {
    hide Times, Over;
    SortElements(side, book);
    CanonicalForm(side, book);
    var ls := StableSort(side, book);
    if ls != [] {
      MergedWalk(ls, q, ls[0].price);
      QuoteCongruent(side, ls, Merged(ls), q);
    }
  }

  /** The estimate sees exactly the depth at each price: two books answer every size alike if and
      only if the same total size rests at every price. */
  lemma BookEquivalence(side: Side, a: seq<Level>, b: seq<Level>)
    requires AllLiquid(a) && AllLiquid(b)
    ensures SameDepth(a, b) <==> forall q :: q > 0.0 ==> QuoteBook(side, a, q) == QuoteBook(side, b, q)
  {
    hide Times, Over;
    var ca, cb := Canonical(side, a), Canonical(side, b);
    CanonicalForm(side, a);
    CanonicalForm(side, b);
    forall q | q > 0.0
      ensures SameDepth(a, b) ==> QuoteBook(side, a, q) == QuoteBook(side, b, q)
      ensures QuoteBook(side, a, q) == QuoteBook(side, b, q) ==> SameWalk(ca, cb, q)
    {
      QuoteOfCanonical(side, a, q);
      QuoteOfCanonical(side, b, q);
      TakePositive(ca, q);
      if SameDepth(a, b) {
        assert forall p :: DepthAt(ca, p) == DepthAt(a, p);
        CanonicalUnique(side, ca, cb);
      }
      if QuoteBook(side, a, q) == QuoteBook(side, b, q) && ca != [] {
        WorstDefault(ca, q, ca[0].price, 0.0);
        WorstDefault(cb, q, cb[0].price, 0.0);
      }
    }
    if forall q :: q > 0.0 ==> QuoteBook(side, a, q) == QuoteBook(side, b, q) {
      WalksDetermineBook(side, ca, cb);
      assert forall p :: DepthAt(a, p) == DepthAt(ca, p);
    }
  }

  // ---- consequences: reordering, splitting, junk -----------------------------------

  lemma {:induction false} DepthConcat(a: seq<Level>, b: seq<Level>, p: real)
    ensures DepthAt(a + b, p) == DepthAt(a, p) + DepthAt(b, p)
  {
    if a == [] {
      assert a + b == b;
    } else {
      assert (a + b)[1..] == a[1..] + b;
      DepthConcat(a[1..], b, p);
    }
  }

  lemma DepthWithout(b: seq<Level>, i: nat, p: real)
    requires i < |b|
    ensures DepthAt(b, p) == (if b[i].price == p then b[i].size else 0.0) + DepthAt(b[..i] + b[i + 1..], p)
  {
    var y := b[i + 1..];
    assert b == b[..i] + ([b[i]] + y);
    DepthConcat(b[..i], y, p);
    DepthConcat(b[..i], [b[i]] + y, p);
    assert ([b[i]] + y)[1..] == y;
  }

  lemma MultisetWithout<T>(a: seq<T>, b: seq<T>, i: nat)
    requires a != [] && multiset(a) == multiset(b) && i < |b| && b[i] == a[0]
    ensures multiset(a[1..]) == multiset(b[..i] + b[i + 1..])
  {
    assert a == [a[0]] + a[1..] && b == b[..i] + [b[i]] + b[i + 1..];
    assert multiset(a) - multiset{a[0]} == multiset(a[1..]);
    assert multiset(b) - multiset{a[0]} == multiset(b[..i] + b[i + 1..]);
  }

  lemma {:induction false} DepthOfMultiset(a: seq<Level>, b: seq<Level>, p: real)
    requires multiset(a) == multiset(b)
    ensures DepthAt(a, p) == DepthAt(b, p)
  {
    if a == [] {
      assert |multiset(b)| == 0;
    } else {
      assert a[0] in multiset(b);
      var i :| 0 <= i < |b| && b[i] == a[0];
      MultisetWithout(a, b, i);
      DepthWithout(b, i, p);
      DepthOfMultiset(a[1..], b[..i] + b[i + 1..], p);
    }
  }

  /** Any reordering of the levels, also among equal prices, leaves every estimate as it was. */
  lemma OrderIndependent(side: Side, a: seq<Level>, b: seq<Level>, q: real)
    requires AllLiquid(a) && multiset(a) == multiset(b) && q > 0.0
    ensures AllLiquid(b) && QuoteBook(side, a, q) == QuoteBook(side, b, q)
  {
    hide Times, Over;
    forall i | 0 <= i < |b| ensures IsLiquidity(b[i]) {
      assert b[i] in multiset(b);
      assert b[i] in a;
    }
    forall p ensures DepthAt(a, p) == DepthAt(b, p) {
      DepthOfMultiset(a, b, p);
    }
    BookEquivalence(side, a, b);
  }

  /** So does splitting one level in two at the same price, or merging two. */
  lemma SplitIndependent(side: Side, x: seq<Level>, y: seq<Level>, p: real, s1: real, s2: real, q: real)
    requires AllLiquid(x) && AllLiquid(y) && p > 0.0 && s1 > 0.0 && s2 > 0.0 && q > 0.0
    ensures AllLiquid(x + [Level(p, s1 + s2)] + y) && AllLiquid(x + [Level(p, s1), Level(p, s2)] + y)
    ensures QuoteBook(side, x + [Level(p, s1 + s2)] + y, q)
         == QuoteBook(side, x + [Level(p, s1), Level(p, s2)] + y, q)
  {
    hide Times, Over;
    var one, two := [Level(p, s1 + s2)], [Level(p, s1), Level(p, s2)];
    forall r ensures DepthAt(x + one + y, r) == DepthAt(x + two + y, r) {
      DepthConcat(x + one, y, r);
      DepthConcat(x, one, r);
      DepthConcat(x + two, y, r);
      DepthConcat(x, two, r);
      assert two[1..] == [Level(p, s2)] && two[1..][1..] == [] && one[1..] == [];
      assert DepthAt(two, r) == (if p == r then s1 else 0.0) + DepthAt(two[1..], r);
      assert DepthAt(two[1..], r) == if p == r then s2 else 0.0;
      assert DepthAt(one, r) == if p == r then s1 + s2 else 0.0;
    }
    BookEquivalence(side, x + one + y, x + two + y);
  }

  lemma {:induction false} LiquidConcat(parse: Parser, x: seq<RawLevel>, y: seq<RawLevel>)
    requires forall i :: 0 <= i < |x| ==> WellFormed(parse, x[i])
    requires forall i :: 0 <= i < |y| ==> WellFormed(parse, y[i])
    ensures Liquid(parse, x + y) == Liquid(parse, x) + Liquid(parse, y)
    decreases |y|
  {
    if y == [] {
      assert x + y == x;
    } else {
      LiquidSnoc(parse, x, y[0]);
      assert x + y == (x + [y[0]]) + y[1..];
      assert y == [y[0]] + y[1..];
      LiquidConcat(parse, x + [y[0]], y[1..]);
      var l := Liquid(parse, [y[0]]);
      assert Liquid(parse, y) == l + Liquid(parse, y[1..]);
    }
  }

  /** A well-formed entry that is no liquidity might as well not be in the book. */
  lemma JunkIgnored(parse: Parser, x: seq<RawLevel>, junk: RawLevel, y: seq<RawLevel>)
    requires forall i :: 0 <= i < |x| ==> WellFormed(parse, x[i])
    requires forall i :: 0 <= i < |y| ==> WellFormed(parse, y[i])
    requires WellFormed(parse, junk)
    requires parse(junk.price).value <= 0.0 || parse(junk.size).value <= 0.0
    ensures Liquid(parse, x + [junk] + y) == Liquid(parse, x + y)
  {
    LiquidConcat(parse, x + [junk], y);
    LiquidConcat(parse, x, y);
    LiquidSnoc(parse, x, junk);
    assert Liquid(parse, [junk]) == [];
    assert Liquid(parse, x) + [] == Liquid(parse, x);
  }

  // ---- the whole operation --------------------------------------------------------

  predicate Offers(parse: Parser, r: RawLevel)
    requires WellFormed(parse, r)
  {
    parse(r.price).value > 0.0 && parse(r.size).value > 0.0
  }

  lemma {:induction false} LiquidNonEmpty(parse: Parser, raw: seq<RawLevel>)
    requires forall i :: 0 <= i < |raw| ==> WellFormed(parse, raw[i])
    ensures Liquid(parse, raw) != [] <==> exists i :: 0 <= i < |raw| && Offers(parse, raw[i])
  {
    if raw != [] {
      LiquidNonEmpty(parse, raw[1..]);
      assert WellFormed(parse, raw[0]);
      if i :| 0 <= i < |raw| && Offers(parse, raw[i]) {
        assert i > 0 ==> raw[i] == raw[1..][i - 1];
      }
      if i :| 0 <= i < |raw[1..]| && Offers(parse, raw[1..][i]) {
        assert raw[i + 1] == raw[1..][i];
      }
    }
  }

  /** An estimate is given exactly for a positive size, a known side whose entries all parse, and
      at least one entry that is liquidity. */
  lemma EstimateSucceeds(parse: Parser, ticker: string, side: Side, ob: Orderbook, size: string)
    ensures Estimate(parse, ticker, side, ob, size).Ok? <==>
      && parse(size).Some? && parse(size).value > 0.0
      && !side.Other?
      && (var raw := if side.Buy? then ob.asks else ob.bids;
          && (forall i :: 0 <= i < |raw| ==> WellFormed(parse, raw[i]))
          && exists i :: 0 <= i < |raw| && WellFormed(parse, raw[i]) && Offers(parse, raw[i]))
  {
    hide Times, Over;
    if !side.Other? {
      var raw := Crossed(side, ob).value;
      if forall i :: 0 <= i < |raw| ==> WellFormed(parse, raw[i]) {
        LiquidNonEmpty(parse, raw);
        var book := Liquid(parse, raw);
        SortElements(side, book);
        assert |multiset(StableSort(side, book))| == |multiset(book)|;
        if parse(size).Some? && parse(size).value > 0.0 {
          var q := parse(size).value;
          EstimateOfQuote(parse, ticker, side, ob, size, q, raw, QuoteBook(side, book, q));
        }
      }
    }
  }

  ghost predicate AllWellFormed(parse: Parser, raw: seq<RawLevel>) {
    forall i :: 0 <= i < |raw| ==> WellFormed(parse, raw[i])
  }

  /** Both sides of a book fail to parse, or both parse to the same depth at every price. */
  ghost predicate SameSide(parse: Parser, x: seq<RawLevel>, y: seq<RawLevel>) {
    && (AllWellFormed(parse, x) <==> AllWellFormed(parse, y))
    && (AllWellFormed(parse, x) && AllWellFormed(parse, y) ==> SameDepth(Liquid(parse, x), Liquid(parse, y)))
  }

  /** The whole operation, errors included, sees no more of an order book than that. */
  lemma SameSideSameEstimate(parse: Parser, ticker: string, side: Side, a: Orderbook, b: Orderbook, size: string)
    requires SameSide(parse, a.bids, b.bids) && SameSide(parse, a.asks, b.asks)
    ensures Estimate(parse, ticker, side, a, size) == Estimate(parse, ticker, side, b, size)
  {
    hide Times, Over, SameDepth, QuoteBook, Liquid, Render;
    if !side.Other? && parse(size).Some? && parse(size).value > 0.0 {
      var q, x, y := parse(size).value, Crossed(side, a).value, Crossed(side, b).value;
      if AllWellFormed(parse, x) {
        BookEquivalence(side, Liquid(parse, x), Liquid(parse, y));
        EstimateOfQuote(parse, ticker, side, a, size, q, x, QuoteBook(side, Liquid(parse, x), q));
        EstimateOfQuote(parse, ticker, side, b, size, q, y, QuoteBook(side, Liquid(parse, y), q));
      } else {
        assert !AllWellFormed(parse, y);
      }
    }
  }

  lemma LiquidWithout(parse: Parser, y: seq<RawLevel>, i: nat, p: real)
    requires AllWellFormed(parse, y) && i < |y|
    ensures AllWellFormed(parse, y[..i] + y[i + 1..])
    ensures DepthAt(Liquid(parse, y), p)
         == DepthAt(Liquid(parse, [y[i]]), p) + DepthAt(Liquid(parse, y[..i] + y[i + 1..]), p)
  {
    hide Liquid, WellFormed;
    var u, v := y[..i], y[i + 1..];
    assert y == u + ([y[i]] + v);
    LiquidConcat(parse, u, [y[i]] + v);
    LiquidConcat(parse, [y[i]], v);
    LiquidConcat(parse, u, v);
    DepthConcat(Liquid(parse, u), Liquid(parse, [y[i]] + v), p);
    DepthConcat(Liquid(parse, [y[i]]), Liquid(parse, v), p);
    DepthConcat(Liquid(parse, u), Liquid(parse, v), p);
  }

  lemma {:induction false} LiquidOfMultiset(parse: Parser, x: seq<RawLevel>, y: seq<RawLevel>, p: real)
    requires multiset(x) == multiset(y) && AllWellFormed(parse, x) && AllWellFormed(parse, y)
    ensures DepthAt(Liquid(parse, x), p) == DepthAt(Liquid(parse, y), p)
  {
    hide Liquid, WellFormed;
    if x == [] {
      assert |multiset(y)| == 0;
    } else {
      assert x[0] in multiset(y);
      var i :| 0 <= i < |y| && y[i] == x[0];
      MultisetWithout(x, y, i);
      LiquidWithout(parse, y, i, p);
      LiquidWithout(parse, x, 0, p);
      assert x[..0] + x[1..] == x[1..];
      LiquidOfMultiset(parse, x[1..], y[..i] + y[i + 1..], p);
    }
  }

  lemma PermutedSide(parse: Parser, x: seq<RawLevel>, y: seq<RawLevel>)
    requires multiset(x) == multiset(y)
    ensures SameSide(parse, x, y)
  {
    hide Liquid, WellFormed;
    assert forall r :: r in x <==> r in multiset(x);
    assert forall r :: r in y <==> r in multiset(y);
    assert AllWellFormed(parse, x) <==> forall r :: r in x ==> WellFormed(parse, r);
    assert AllWellFormed(parse, y) <==> forall r :: r in y ==> WellFormed(parse, r);
    if AllWellFormed(parse, x) {
      forall p ensures DepthAt(Liquid(parse, x), p) == DepthAt(Liquid(parse, y), p) {
        LiquidOfMultiset(parse, x, y, p);
      }
    }
  }

  /** Reordering the entries of an order book, malformed ones included, changes no answer. */
  lemma EstimateOrderFree(parse: Parser, ticker: string, side: Side, a: Orderbook, b: Orderbook, size: string)
    requires multiset(a.bids) == multiset(b.bids) && multiset(a.asks) == multiset(b.asks)
    ensures Estimate(parse, ticker, side, a, size) == Estimate(parse, ticker, side, b, size)
  {
    PermutedSide(parse, a.bids, b.bids);
    PermutedSide(parse, a.asks, b.asks);
    SameSideSameEstimate(parse, ticker, side, a, b, size);
  }

  /** Two entries that parse to one price and positive sizes are one entry of that price and the sum. */
  predicate Splits(parse: Parser, whole: RawLevel, one: RawLevel, two: RawLevel) {
    && WellFormed(parse, whole) && WellFormed(parse, one) && WellFormed(parse, two)
    && parse(whole.price) == parse(one.price) == parse(two.price)
    && parse(one.size).value > 0.0 && parse(two.size).value > 0.0
    && parse(whole.size).value == parse(one.size).value + parse(two.size).value
  }

  lemma SplitDepth(parse: Parser, whole: RawLevel, one: RawLevel, two: RawLevel, p: real)
    requires Splits(parse, whole, one, two)
    ensures DepthAt(Liquid(parse, [whole]), p) == DepthAt(Liquid(parse, [one, two]), p)
  {
    assert [one, two][1..] == [two] && [two][1..] == [] && [whole][1..] == [];
    var k, s := parse(one.price).value, parse(one.size).value;
    if k > 0.0 {
      assert Liquid(parse, [two]) == [Level(k, parse(two.size).value)];
      assert Liquid(parse, [one, two]) == [Level(k, s)] + [Level(k, parse(two.size).value)];
      DepthConcat([Level(k, s)], [Level(k, parse(two.size).value)], p);
    }
  }

  lemma SplitSide(parse: Parser, x: seq<RawLevel>, whole: RawLevel, one: RawLevel, two: RawLevel, y: seq<RawLevel>)
    requires Splits(parse, whole, one, two)
    ensures SameSide(parse, x + [whole] + y, x + [one, two] + y)
  {
    hide Liquid, WellFormed;
    var a, b := x + [whole] + y, x + [one, two] + y;
    assert AllWellFormed(parse, a) <==> AllWellFormed(parse, x) && AllWellFormed(parse, y) by {
      PartsWellFormed(parse, x, [whole], y);
    }
    assert AllWellFormed(parse, b) <==> AllWellFormed(parse, x) && AllWellFormed(parse, y) by {
      PartsWellFormed(parse, x, [one, two], y);
    }
    if AllWellFormed(parse, a) {
      forall p ensures DepthAt(Liquid(parse, a), p) == DepthAt(Liquid(parse, b), p) {
        DepthOfParts(parse, x, [whole], y, p);
        DepthOfParts(parse, x, [one, two], y, p);
        SplitDepth(parse, whole, one, two, p);
      }
    }
  }

  lemma PartsWellFormed(parse: Parser, x: seq<RawLevel>, m: seq<RawLevel>, y: seq<RawLevel>)
    ensures AllWellFormed(parse, x + m + y)
            <==> AllWellFormed(parse, x) && AllWellFormed(parse, m) && AllWellFormed(parse, y)
  {
    hide WellFormed;
    var a := x + m + y;
    assert forall r :: r in a <==> r in x || r in m || r in y;
    assert AllWellFormed(parse, a) <==> forall r :: r in a ==> WellFormed(parse, r);
  }

  lemma DepthOfParts(parse: Parser, x: seq<RawLevel>, m: seq<RawLevel>, y: seq<RawLevel>, p: real)
    requires AllWellFormed(parse, x) && AllWellFormed(parse, m) && AllWellFormed(parse, y)
    ensures AllWellFormed(parse, x + m + y)
    ensures DepthAt(Liquid(parse, x + m + y), p)
         == DepthAt(Liquid(parse, x), p) + DepthAt(Liquid(parse, m), p) + DepthAt(Liquid(parse, y), p)
  {
    hide Liquid, WellFormed;
    LiquidConcat(parse, x, m);
    LiquidConcat(parse, x + m, y);
    DepthConcat(Liquid(parse, x), Liquid(parse, m), p);
    DepthConcat(Liquid(parse, x + m), Liquid(parse, y), p);
  }

  /** Neither does splitting one entry in two at its price, or merging two, on either side of the book. */
  lemma EstimateSplitFree(parse: Parser, ticker: string, side: Side, x: seq<RawLevel>, y: seq<RawLevel>,
                          whole: RawLevel, one: RawLevel, two: RawLevel, other: seq<RawLevel>, size: string)
    requires Splits(parse, whole, one, two)
    ensures Estimate(parse, ticker, side, Orderbook(x + [whole] + y, other), size)
         == Estimate(parse, ticker, side, Orderbook(x + [one, two] + y, other), size)
    ensures Estimate(parse, ticker, side, Orderbook(other, x + [whole] + y), size)
         == Estimate(parse, ticker, side, Orderbook(other, x + [one, two] + y), size)
  {
    hide Estimate, SameSide;
    SplitSide(parse, x, whole, one, two, y);
    PermutedSide(parse, other, other);
    var a, b := x + [whole] + y, x + [one, two] + y;
    SameSideSameEstimate(parse, ticker, side, Orderbook(a, other), Orderbook(b, other), size);
    SameSideSameEstimate(parse, ticker, side, Orderbook(other, a), Orderbook(other, b), size);
  }

  /** Nor does a well-formed entry that is no liquidity, present or absent. */
  lemma EstimateJunkFree(parse: Parser, ticker: string, side: Side, x: seq<RawLevel>, junk: RawLevel,
                         y: seq<RawLevel>, other: seq<RawLevel>, size: string)
    requires WellFormed(parse, junk) && !Offers(parse, junk)
    ensures Estimate(parse, ticker, side, Orderbook(x + [junk] + y, other), size)
         == Estimate(parse, ticker, side, Orderbook(x + y, other), size)
    ensures Estimate(parse, ticker, side, Orderbook(other, x + [junk] + y), size)
         == Estimate(parse, ticker, side, Orderbook(other, x + y), size)
  {
    hide Estimate, Liquid;
    var a, b := x + [junk] + y, x + y;
    PartsWellFormed(parse, x, [junk], y);
    PartsWellFormed(parse, x, [], y);
    assert x + [] + y == b;
    if AllWellFormed(parse, a) {
      JunkIgnored(parse, x, junk, y);
    }
    assert SameSide(parse, a, b);
    PermutedSide(parse, other, other);
    SameSideSameEstimate(parse, ticker, side, Orderbook(a, other), Orderbook(b, other), size);
    SameSideSameEstimate(parse, ticker, side, Orderbook(other, a), Orderbook(other, b), size);
  }

  /** The refusals, in the order they are given: a size that is not positive, an unknown side, a
      malformed entry of the side crossed, and no liquidity on it. */
  lemma EstimateRefuses(parse: Parser, ticker: string, side: Side, ob: Orderbook, size: string)
    ensures var r := Estimate(parse, ticker, side, ob, size); var raw := if side.Buy? then ob.asks else ob.bids;
            var positive := parse(size).Some? && parse(size).value > 0.0;
            var readable := forall i :: 0 <= i < |raw| ==> WellFormed(parse, raw[i]);
            && (r == Err(SizeNotPositive) <==> !positive)
            && (r == Err(UnknownSide) <==> positive && side.Other?)
            && (r == Err(MalformedLevel) <==> positive && !side.Other? && !readable)
            && (r == Err(NoLiquidity) <==>
                  && positive && !side.Other? && readable
                  && forall i :: 0 <= i < |raw| && WellFormed(parse, raw[i]) ==>
                       !(parse(raw[i].price).value > 0.0 && parse(raw[i].size).value > 0.0))
  {
    hide Times, Over, Render, QuoteBook, Liquid;
    EstimateSucceeds(parse, ticker, side, ob, size);
    var r := Estimate(parse, ticker, side, ob, size);
    if r.Err? && r.error == NoLiquidity {
      var raw := Crossed(side, ob).value;
      forall i | 0 <= i < |raw| && WellFormed(parse, raw[i]) ensures !Offers(parse, raw[i]) {}
    }
  }

  /** In the taker's own terms. A buyer's average lies at or above the lowest ask and at or below the
      dearest one taken, and slippage is what it lies above; a seller's the other way round. */
  lemma TakersTerms(side: Side, book: seq<Level>, q: real)
    requires book != [] && AllLiquid(book) && q > 0.0 && !side.Other?
    ensures QuoteBook(side, book, q).Some? && StableSort(side, book) != []
    ensures var e := QuoteBook(side, book, q).value; var touch := StableSort(side, book)[0].price;
            && (exists i :: 0 <= i < |book| && book[i].price == touch)
            && (side.Buy? ==>
                  && (forall i :: 0 <= i < |book| ==> touch <= book[i].price)
                  && touch <= e.average <= e.worst
                  && Times(e.slippage, touch) == (e.average - touch) * 10000.0)
            && (side.Sell? ==>
                  && (forall i :: 0 <= i < |book| ==> touch >= book[i].price)
                  && touch >= e.average >= e.worst
                  && Times(e.slippage, touch) == (touch - e.average) * 10000.0)
  {
    hide Times, Over, QuoteBook, StableSort;
    WalkAccounting(side, book, q);
    SortElements(side, book);
    var ls := StableSort(side, book);
    assert ls[0] in multiset(ls);
    assert ls[0] in book;
  }

  /** What a caller reads: the request echoed, the size filled and whether that is all of it, and
      each figure rounded to 18 decimals, written the one way it can be. Rounding keeps the order: the
      printed average stays on the taker's side of the printed worst price, and printed slippage is
      never negative. */
  lemma PrintedEstimate(parse: Parser, ticker: string, side: Side, ob: Orderbook, size: string)
    ensures Estimate(parse, ticker, side, ob, size).Ok? ==>
            var e := Estimate(parse, ticker, side, ob, size).value;
            var raw := if side.Buy? then ob.asks else ob.bids;
            && !side.Other? && parse(size).Some? && parse(size).value > 0.0
            && (forall i :: 0 <= i < |raw| ==> WellFormed(parse, raw[i]))
            && (var book, q := Liquid(parse, raw), parse(size).value;
                && e.ticker == ticker && e.side == side && e.requestedSize == size
                && (e.fullyFilled <==> Depth(book) >= q)
                && Decimal.ParseDecimal(e.filledSize) == Some(Decimal.Rounded(Min(q, Depth(book)), 18))
                && QuoteBook(side, book, q).Some?
                && (var quote := QuoteBook(side, book, q).value;
                    && Decimal.ParseDecimal(e.averagePrice) == Some(Decimal.Rounded(quote.average, 18))
                    && Decimal.ParseDecimal(e.worstPrice) == Some(Decimal.Rounded(quote.worst, 18))
                    && Decimal.ParseDecimal(e.slippageBps) == Some(Decimal.Rounded(quote.slippage, 18))
                    && Key(side, Decimal.Rounded(quote.average, 18)) <= Key(side, Decimal.Rounded(quote.worst, 18))
                    && Decimal.Rounded(quote.slippage, 18) >= 0.0
                    && Decimal.Figure(e.filledSize, Min(q, Depth(book)), 18)
                    && Decimal.Figure(e.averagePrice, quote.average, 18)
                    && Decimal.Figure(e.worstPrice, quote.worst, 18)
                    && Decimal.Figure(e.slippageBps, quote.slippage, 18)))
  {
    hide Times, Over, Decimal.Rounded, Decimal.Printed, Decimal.ParseDecimal, Decimal.Figure;
    EstimateSucceeds(parse, ticker, side, ob, size);
    if Estimate(parse, ticker, side, ob, size).Ok? {
      var raw, q := Crossed(side, ob).value, parse(size).value;
      var book := Liquid(parse, raw);
      LiquidNonEmpty(parse, raw);
      EstimateOfQuote(parse, ticker, side, ob, size, q, raw, QuoteBook(side, book, q));
      WalkAccounting(side, book, q);
      PrintedQuote(side, QuoteBook(side, book, q).value);
    }
  }

  lemma PrintedQuote(side: Side, e: Quote)
    requires !side.Other? && Key(side, e.average) <= Key(side, e.worst) && e.slippage >= 0.0
    ensures Decimal.ParseDecimal(Decimal.RatString(e.filled)) == Some(Decimal.Rounded(e.filled, 18))
    ensures Decimal.ParseDecimal(Decimal.RatString(e.average)) == Some(Decimal.Rounded(e.average, 18))
    ensures Decimal.ParseDecimal(Decimal.RatString(e.worst)) == Some(Decimal.Rounded(e.worst, 18))
    ensures Decimal.ParseDecimal(Decimal.RatString(e.slippage)) == Some(Decimal.Rounded(e.slippage, 18))
    ensures Key(side, Decimal.Rounded(e.average, 18)) <= Key(side, Decimal.Rounded(e.worst, 18))
    ensures Decimal.Rounded(e.slippage, 18) >= 0.0
    ensures Decimal.Figure(Decimal.RatString(e.filled), e.filled, 18)
    ensures Decimal.Figure(Decimal.RatString(e.average), e.average, 18)
    ensures Decimal.Figure(Decimal.RatString(e.worst), e.worst, 18)
    ensures Decimal.Figure(Decimal.RatString(e.slippage), e.slippage, 18)
  {
    hide Decimal.Rounded, Decimal.Printed, Decimal.ParseDecimal, Decimal.Figure;
    Decimal.PrintedUnique(e.filled, 18, Decimal.RatString(e.filled));
    Decimal.PrintedUnique(e.average, 18, Decimal.RatString(e.average));
    Decimal.PrintedUnique(e.worst, 18, Decimal.RatString(e.worst));
    Decimal.PrintedUnique(e.slippage, 18, Decimal.RatString(e.slippage));
    Decimal.PrintedValue(e.filled, 18);
    Decimal.PrintedValue(e.average, 18);
    Decimal.PrintedValue(e.worst, 18);
    Decimal.PrintedValue(e.slippage, 18);
    if side.Buy? {
      Decimal.RoundedMonotone(e.average, e.worst, 18);
    } else {
      Decimal.RoundedMonotone(e.worst, e.average, 18);
    }
    Decimal.RoundedMonotone(0.0, e.slippage, 18);
    Decimal.RoundedZero(18);
  }
}
