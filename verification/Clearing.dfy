/** The batch-auction clearing estimate: filter and sort one side of an order book, walk it
    greedily, and report fill, average, worst price and slippage. */
module Clearing {
  import opened Basics
  import opened Products
  import Decimal

  /** Side is a string in the source; Other stands for any value but "buy" and "sell". */
  datatype Side = Buy | Sell | Other(name: string)

  datatype RawLevel = RawLevel(price: string, size: string)
  datatype Orderbook = Orderbook(bids: seq<RawLevel>, asks: seq<RawLevel>)
  datatype Level = Level(price: real, size: real)

  datatype ClearingEstimate = ClearingEstimate(
    ticker: string, side: Side, requestedSize: string, filledSize: string, fullyFilled: bool,
    averagePrice: string, worstPrice: string, slippageBps: string)

  datatype EstimateError = SizeNotPositive | UnknownSide | MalformedLevel | NoLiquidity

  /** The estimate before it is printed. */
  datatype Quote = Quote(filled: real, fully: bool, average: real, worst: real, slippage: real)

  /** Rat.SetString, as an arbitrary partial reading of strings. */
  type Parser = string -> Option<real>

  // ---- the levels a taker crosses -------------------------------------------------

  /** A price as a cost to the taker: dearer asks and lower bids have the larger key. */
  function Key(side: Side, price: real): real {
    if side == Buy then price else -price
  }

  predicate IsLiquidity(l: Level) { l.price > 0.0 && l.size > 0.0 }

  predicate AllLiquid(ls: seq<Level>) { forall i :: 0 <= i < |ls| ==> IsLiquidity(ls[i]) }

  predicate WellFormed(parse: Parser, r: RawLevel) { parse(r.price).Some? && parse(r.size).Some? }

  /** The well-formed levels with positive price and size, in book order. */
  function Liquid(parse: Parser, raw: seq<RawLevel>): (ls: seq<Level>)
    requires forall i :: 0 <= i < |raw| ==> WellFormed(parse, raw[i])
    ensures AllLiquid(ls)
  {
    if raw == [] then []
    else
      assert WellFormed(parse, raw[0]);
      var l := Level(parse(raw[0].price).value, parse(raw[0].size).value);
      (if IsLiquidity(l) then [l] else []) + Liquid(parse, raw[1..])
  }

  function Crossed(side: Side, ob: Orderbook): Option<seq<RawLevel>> {
    match side
    case Buy => Some(ob.asks)
    case Sell => Some(ob.bids)
    case Other(_) => None
  }

  /** Puts a level in front of those it does not come after: an earlier level of the same
      price stays earlier. */
  function Insert(side: Side, l: Level, t: seq<Level>): seq<Level> {
    if t != [] && Key(side, t[0].price) < Key(side, l.price) then [t[0]] + Insert(side, l, t[1..])
    else [l] + t
  }

  /** The stable sort the walk relies on. */
  function StableSort(side: Side, ls: seq<Level>): seq<Level> {
    if ls == [] then [] else Insert(side, ls[0], StableSort(side, ls[1..]))
  }

  // ---- the walk, as functions of the size asked for -------------------------------

  function Min(a: real, b: real): real { if a <= b then a else b }

  /** Size taken from ls when q is wanted. */
  function Take(ls: seq<Level>, q: real): real {
    if ls == [] || q <= 0.0 then 0.0
    else var t := Min(ls[0].size, q); t + Take(ls[1..], q - t)
  }

  /** What that size costs. */
  function Cost(ls: seq<Level>, q: real): real {
    if ls == [] || q <= 0.0 then 0.0
    else var t := Min(ls[0].size, q); Times(ls[0].price, t) + Cost(ls[1..], q - t)
  }

  /** Price of the last level touched, or w when none is. */
  function Worst(ls: seq<Level>, q: real, w: real): real {
    if ls == [] || q <= 0.0 then w
    else Worst(ls[1..], q - Min(ls[0].size, q), ls[0].price)
  }

  lemma {:induction false} TakePositive(ls: seq<Level>, q: real)
    requires AllLiquid(ls)
    ensures 0.0 <= Take(ls, q)
    ensures Take(ls, q) > 0.0 <==> ls != [] && q > 0.0
  {
    if ls != [] && q > 0.0 {
      assert IsLiquidity(ls[0]);
      TakePositive(ls[1..], q - Min(ls[0].size, q));
    }
  }

  function QuoteOf(side: Side, ls: seq<Level>, q: real): Quote
    requires ls != [] && AllLiquid(ls) && q > 0.0
  {
    TakePositive(ls, q);
    assert IsLiquidity(ls[0]);
    var touch := ls[0].price;
    var filled := Take(ls, q);
    var average := Over(Cost(ls, q), filled);
    var diff := if side == Sell then -(average - touch) else average - touch;
    Quote(filled, q - filled <= 0.0, average, Worst(ls, q, touch), Over(diff * 10000.0, touch))
  }

  function Render(ticker: string, side: Side, size: string, quote: Quote): ClearingEstimate {
    ClearingEstimate(ticker, side, size, Decimal.RatString(quote.filled), quote.fully,
                     Decimal.RatString(quote.average), Decimal.RatString(quote.worst),
                     Decimal.RatString(quote.slippage))
  }

  lemma {:induction false} InsertElements(side: Side, l: Level, t: seq<Level>)
    ensures multiset(Insert(side, l, t)) == multiset{l} + multiset(t)
    ensures AllLiquid(t) && IsLiquidity(l) ==> AllLiquid(Insert(side, l, t))
  {
    if t != [] && Key(side, t[0].price) < Key(side, l.price) {
      InsertElements(side, l, t[1..]);
      assert t == [t[0]] + t[1..];
      if AllLiquid(t) {
        assert IsLiquidity(t[0]);
      }
    }
  }

  lemma {:induction false} SortElements(side: Side, ls: seq<Level>)
    ensures multiset(StableSort(side, ls)) == multiset(ls)
    ensures AllLiquid(ls) ==> AllLiquid(StableSort(side, ls))
  {
    if ls != [] {
      SortElements(side, ls[1..]);
      InsertElements(side, ls[0], StableSort(side, ls[1..]));
      assert ls == [ls[0]] + ls[1..];
      if AllLiquid(ls) {
        assert IsLiquidity(ls[0]);
      }
    }
  }

  /** The estimate of a book side in book order. */
  function QuoteBook(side: Side, ls: seq<Level>, q: real): Option<Quote>
    requires AllLiquid(ls) && q > 0.0
  {
    SortElements(side, ls);
    var sorted := StableSort(side, ls);
    if sorted == [] then None else Some(QuoteOf(side, sorted, q))
  }

  /** What the exported operation answers, error cases included. */
  function Estimate(parse: Parser, ticker: string, side: Side, ob: Orderbook, size: string)
    : Result<ClearingEstimate, EstimateError>
  {
    match parse(size)
    case None => Err(SizeNotPositive)
    case Some(want) =>
      if want <= 0.0 then Err(SizeNotPositive)
      else match Crossed(side, ob)
        case None => Err(UnknownSide)
        case Some(raw) =>
          if exists i :: 0 <= i < |raw| && !WellFormed(parse, raw[i]) then Err(MalformedLevel)
          else match QuoteBook(side, Liquid(parse, raw), want)
            case None => Err(NoLiquidity)
            case Some(quote) => Ok(Render(ticker, side, size, quote))
  }

  // ---- the operation as the source runs it, on mutable rationals --------------------

  /** big.Rat: methods overwrite their receiver. */
  class Rat {
    var v: real

    constructor (x: real)
      ensures v == x
    {
      v := x;
    }

    method Add(x: Rat, y: Rat)
      modifies this
      ensures v == old(x.v) + old(y.v)
    {
      v := x.v + y.v;
    }

    method Sub(x: Rat, y: Rat)
      modifies this
      ensures v == old(x.v) - old(y.v)
    {
      v := x.v - y.v;
    }

    method Mul(x: Rat, y: Rat)
      modifies this
      ensures v == Times(old(x.v), old(y.v))
    {
      v := x.v * y.v;
    }

    method Quo(x: Rat, y: Rat)
      requires y.v != 0.0
      modifies this
      ensures v == Over(old(x.v), old(y.v))
    {
      v := x.v / y.v;
    }

    method Neg(x: Rat)
      modifies this
      ensures v == -old(x.v)
    {
      v := -x.v;
    }
  }

  datatype LevelRef = LevelRef(price: Rat, size: Rat)

  /** The rationals the references point to currently hold exactly these levels. */
  ghost predicate Holds(refs: seq<LevelRef>, ls: seq<Level>)
    reads set i | 0 <= i < |refs| :: refs[i].price
    reads set i | 0 <= i < |refs| :: refs[i].size
  {
    && |refs| == |ls|
    && (forall i :: 0 <= i < |refs| ==> refs[i].price.v == ls[i].price)
    && (forall i :: 0 <= i < |refs| ==> refs[i].size.v == ls[i].size)
  }

  lemma {:induction false} InsertAt(side: Side, l: Level, t: seq<Level>, j: nat)
    requires j <= |t|
    requires forall i :: 0 <= i < j ==> Key(side, t[i].price) < Key(side, l.price)
    requires j == |t| || !(Key(side, t[j].price) < Key(side, l.price))
    ensures Insert(side, l, t) == t[..j] + [l] + t[j..]
  {
    if j > 0 {
      InsertAt(side, l, t[1..], j - 1);
      assert t == [t[0]] + t[1..];
      assert t[..j] == [t[0]] + t[1..][..j - 1];
    }
  }

  /** Where r belongs among the already sorted references. */
  method InsertionPoint(side: Side, sorted: seq<LevelRef>, r: LevelRef, ghost t: seq<Level>)
    returns (j: nat)
    requires Holds(sorted, t)
    ensures j <= |sorted|
    ensures var l := Level(r.price.v, r.size.v); Insert(side, l, t) == t[..j] + [l] + t[j..]
  {
    ghost var l := Level(r.price.v, r.size.v);
    j := 0;
    while j < |sorted| && Key(side, sorted[j].price.v) < Key(side, r.price.v)
      invariant j <= |sorted|
      invariant forall k :: 0 <= k < j ==> Key(side, t[k].price) < Key(side, l.price)
    {
      j := j + 1;
    }
    InsertAt(side, l, t, j);
  }

  lemma HoldsSplice(refs: seq<LevelRef>, t: seq<Level>, j: nat, r: LevelRef)
    requires Holds(refs, t) && j <= |refs|
    ensures Holds(refs[..j] + [r] + refs[j..], t[..j] + [Level(r.price.v, r.size.v)] + t[j..])
  {}

  method SortLevels(side: Side, refs: seq<LevelRef>, ghost ls: seq<Level>)
    returns (sorted: seq<LevelRef>)
    requires Holds(refs, ls)
    ensures Holds(sorted, StableSort(side, ls))
  {
    sorted := [];
    for i := |refs| downto 0
      invariant Holds(sorted, StableSort(side, ls[i..]))
    {
      ghost var t := StableSort(side, ls[i + 1..]);
      assert ls[i] == Level(refs[i].price.v, refs[i].size.v);
      var j := InsertionPoint(side, sorted, refs[i], t);
      assert StableSort(side, ls[i..]) == Insert(side, ls[i], t) by {
        assert ls[i..][0] == ls[i] && ls[i..][1..] == ls[i + 1..];
      }
      HoldsSplice(sorted, t, j, refs[i]);
      sorted := sorted[..j] + [refs[i]] + sorted[j..];
    }
    assert ls[0..] == ls;
  }

  lemma {:induction false} LiquidSnoc(parse: Parser, raw: seq<RawLevel>, r: RawLevel)
    requires forall i :: 0 <= i < |raw| ==> WellFormed(parse, raw[i])
    requires WellFormed(parse, r)
    ensures Liquid(parse, raw + [r]) == Liquid(parse, raw) + Liquid(parse, [r])
  {
    if raw == [] {
      assert raw + [r] == [r];
    } else {
      assert (raw + [r])[0] == raw[0] && (raw + [r])[1..] == raw[1..] + [r];
      assert WellFormed(parse, raw[0]);
      var l := Level(parse(raw[0].price).value, parse(raw[0].size).value);
      var head := if IsLiquidity(l) then [l] else [];
      assert Liquid(parse, raw) == head + Liquid(parse, raw[1..]);
      assert Liquid(parse, raw + [r]) == head + Liquid(parse, raw[1..] + [r]);
      LiquidSnoc(parse, raw[1..], r);
    }
  }

  lemma LiquidNext(parse: Parser, raw: seq<RawLevel>, i: nat)
    requires i < |raw| && WellFormed(parse, raw[i])
    requires forall k :: 0 <= k < i ==> WellFormed(parse, raw[k])
    ensures var l := Level(parse(raw[i].price).value, parse(raw[i].size).value);
            Liquid(parse, raw[..i + 1]) == Liquid(parse, raw[..i]) + if IsLiquidity(l) then [l] else []
  {
    LiquidSnoc(parse, raw[..i], raw[i]);
    assert raw[..i + 1] == raw[..i] + [raw[i]];
    assert [raw[i]][1..] == [];
  }

  method ParseLevels(parse: Parser, side: Side, ob: Orderbook)
    returns (r: Result<seq<LevelRef>, EstimateError>)
    ensures match Crossed(side, ob)
            case None => r == Err(UnknownSide)
            case Some(raw) =>
              if exists i :: 0 <= i < |raw| && !WellFormed(parse, raw[i]) then r == Err(MalformedLevel)
              else r.Ok? && Holds(r.value, StableSort(side, Liquid(parse, raw)))
  {
    var raw;
    match side {
      case Buy => raw := ob.asks;
      case Sell => raw := ob.bids;
      case Other(_) => return Err(UnknownSide);
    }
    var out: seq<LevelRef> := [];
    for i := 0 to |raw|
      invariant forall k :: 0 <= k < i ==> WellFormed(parse, raw[k])
      invariant Holds(out, Liquid(parse, raw[..i]))
    {
      var p, s := parse(raw[i].price), parse(raw[i].size);
      if p.None? || s.None? {
        assert !WellFormed(parse, raw[i]);
        return Err(MalformedLevel);
      }
      LiquidNext(parse, raw, i);
      if p.value > 0.0 && s.value > 0.0 {
        var price := new Rat(p.value);
        var size := new Rat(s.value);
        out := out + [LevelRef(price, size)];
      }
    }
    assert raw[..|raw|] == raw;
    var sorted := SortLevels(side, out, Liquid(parse, raw));
    return Ok(sorted);
  }

  lemma WalkStep(ls: seq<Level>, i: nat, q: real, w: real) returns (t: real, spent: real)
    requires i < |ls| && q > 0.0
    ensures t == (if ls[i].size > q then q else ls[i].size) && spent == Times(ls[i].price, t)
    ensures Take(ls[i..], q) == t + Take(ls[i + 1..], q - t)
    ensures Cost(ls[i..], q) == spent + Cost(ls[i + 1..], q - t)
    ensures Worst(ls[i..], q, w) == Worst(ls[i + 1..], q - t, ls[i].price)
  {
    assert ls[i..][0] == ls[i] && ls[i..][1..] == ls[i + 1..];
    t := Min(ls[i].size, q);
    spent := Times(ls[i].price, t);
  }

  /** The greedy walk. It accumulates in place and only aliases the levels: `take` and `worst`
      point into the book, and no level changes, since nothing already allocated may. */
  method Walk(refs: seq<LevelRef>, want: Rat, ghost ls: seq<Level>)
    returns (cost: Rat, filled: Rat, remaining: Rat, worst: Rat)
    requires refs != [] && Holds(refs, ls)
    ensures cost.v == Cost(ls, want.v) && filled.v == Take(ls, want.v)
    ensures remaining.v == want.v - Take(ls, want.v)
    ensures worst.v == Worst(ls, want.v, ls[0].price)
    ensures fresh(cost) && fresh(filled) && fresh(remaining)
    ensures exists i :: 0 <= i < |refs| && worst == refs[i].price
  {
    remaining := new Rat(want.v);
    cost := new Rat(0.0);
    filled := new Rat(0.0);
    worst := refs[0].price;
    ghost var q, w0 := want.v, ls[0].price;
    assert ls[0..] == ls;
    for i := 0 to |refs|
      invariant fresh(cost) && fresh(filled) && fresh(remaining)
      invariant cost != filled && cost != remaining && filled != remaining
      invariant exists k :: 0 <= k < |refs| && worst == refs[k].price
      invariant worst != cost && worst != filled && worst != remaining
      invariant filled.v + remaining.v == q
      invariant cost.v + Cost(ls[i..], remaining.v) == Cost(ls, q)
      invariant filled.v + Take(ls[i..], remaining.v) == Take(ls, q)
      invariant Worst(ls[i..], remaining.v, worst.v) == Worst(ls, q, w0)
    {
      if remaining.v <= 0.0 {
        break;
      }
      ghost var t, spent := WalkStep(ls, i, remaining.v, worst.v);
      var take := refs[i].size;
      if take.v > remaining.v {
        take := new Rat(remaining.v);
      }
      assert take.v == t;
      var product := new Rat(0.0);
      product.Mul(refs[i].price, take);
      assert product.v == spent;
      cost.Add(cost, product);
      filled.Add(filled, take);
      remaining.Sub(remaining, take);
      worst := refs[i].price;
    }
  }

  method Slippage(side: Side, touch: Rat, cost: Rat, filled: Rat)
    returns (avg: Rat, slippageBps: Rat)
    requires filled.v != 0.0 && touch.v != 0.0
    ensures fresh(avg) && fresh(slippageBps)
    ensures avg.v == Over(cost.v, filled.v)
    ensures slippageBps.v == 
              Over((if side == Sell then -(avg.v - touch.v) else avg.v - touch.v) * 10000.0, touch.v)
  {
    avg := new Rat(0.0);
    avg.Quo(cost, filled);
    var diff := new Rat(0.0);
    diff.Sub(avg, touch);
    if side == Sell {
      diff.Neg(diff);
    }
    var tenThousand := new Rat(10000.0);
    slippageBps := new Rat(0.0);
    slippageBps.Mul(diff, tenThousand);
    slippageBps.Quo(slippageBps, touch);
  }

  /** The answer is built from the figures the walk leaves behind. */
  method Summarize(ticker: string, side: Side, size: string, touch: Rat, cost: Rat, filled: Rat,
                   remaining: Rat, worst: Rat, ghost ls: seq<Level>, ghost q: real)
    returns (e: ClearingEstimate)
    requires ls != [] && AllLiquid(ls) && q > 0.0 && touch.v == ls[0].price
    requires cost.v == Cost(ls, q) && filled.v == Take(ls, q) && remaining.v == q - Take(ls, q)
    requires worst.v == Worst(ls, q, touch.v)
    ensures e == Render(ticker, side, size, QuoteOf(side, ls, q))
  {
    TakePositive(ls, q);
    assert IsLiquidity(ls[0]);
    var avg, slippageBps := Slippage(side, touch, cost, filled);
    ghost var quote := QuoteOf(side, ls, q);
    assert avg.v == quote.average;
    assert slippageBps.v == quote.slippage;
    e := ClearingEstimate(ticker, side, size, Decimal.RatString(filled.v), remaining.v <= 0.0,
                          Decimal.RatString(avg.v), Decimal.RatString(worst.v),
                          Decimal.RatString(slippageBps.v));
  }

  lemma EstimateOfQuote(parse: Parser, ticker: string, side: Side, ob: Orderbook, size: string, q: real,
                        raw: seq<RawLevel>, quote: Option<Quote>)
    requires parse(size) == Some(q) && q > 0.0 && Crossed(side, ob) == Some(raw)
    requires forall i :: 0 <= i < |raw| ==> WellFormed(parse, raw[i])
    requires quote == QuoteBook(side, Liquid(parse, raw), q)
    ensures Estimate(parse, ticker, side, ob, size)
         == if quote.None? then Err(NoLiquidity) else Ok(Render(ticker, side, size, quote.value))
  {}

  method EstimateClearing(parse: Parser, ticker: string, side: Side, ob: Orderbook, size: string)
    returns (r: Result<ClearingEstimate, EstimateError>)
    ensures r == Estimate(parse, ticker, side, ob, size)
  {
    var parsed := parse(size);
    if parsed.None? || parsed.value <= 0.0 {
      return Err(SizeNotPositive);
    }
    var want := new Rat(parsed.value);
    var resting := ParseLevels(parse, side, ob);
    if resting.Err? {
      return Err(resting.error);
    }
    var levels := resting.value;
    ghost var raw := Crossed(side, ob).value;
    ghost var book := Liquid(parse, raw);
    ghost var ls := StableSort(side, book);
    SortElements(side, book);
    EstimateOfQuote(parse, ticker, side, ob, size, want.v, raw, QuoteBook(side, book, want.v));
    if |levels| == 0 {
      return Err(NoLiquidity);
    }
    TakePositive(ls, want.v);
    var touch := levels[0].price;
    var cost, filled, remaining, worst := Walk(levels, want, ls);
    if filled.v == 0.0 {
      assert false;  // the source's second no-liquidity error is unreachable
    }
    var e := Summarize(ticker, side, size, touch, cost, filled, remaining, worst, ls, want.v);
    return Ok(e);
  }
}
