/** Order book indicators: their loops, and what they sum up to. A value that is not a finite number is None. */
module Indicators {
  import opened Wrappers

  datatype Level = Level(price: Option<real>, size: Option<real>)

  datatype Book = Book(symbol: string, isFresh: bool, timestamp: Option<int>, receivedAt: Option<int>, depth: Option<int>,
                       bids: seq<Level>, asks: seq<Level>)

  datatype Totals = Totals(bid: real, ask: real)

  datatype Report = Report(
    spreadAbs: Option<real>, spreadBps: Option<real>, spreadPercentile: Option<real>, topBookImbalance: Option<real>,
    tickPressure: Option<real>, depthImbalance: Option<real>, cumulativePressure: Option<real>, touchDepletion: Option<real>)

  const UNAVAILABLE := Report(None, None, None, None, None, None, None, None)

  const WINDOW_MS := 60_000
  const MAX_SESSION_SAMPLES := 23_400

  // ---------------------------------------------------------------------------
  // Valid books
  // ---------------------------------------------------------------------------

  predicate ValidLevel(level: Level) {
    level.price.Some? && level.price.value > 0.0 && level.size.Some? && level.size.value >= 0.0
  }

  predicate ValidSide(levels: seq<Level>) {
    forall i :: 0 <= i < |levels| ==> ValidLevel(levels[i])
  }

  predicate WellFormed(book: Book) {
    && book.symbol != "" && book.isFresh && book.timestamp.Some? && book.receivedAt.Some?
    && book.depth.Some? && 1 <= book.depth.value <= |book.bids| && book.depth.value <= |book.asks|
  }

  /** Complete and fresh, positive prices, bids from the best down, asks from the best up, not crossed. */
  predicate ValidBook(book: Book) {
    && WellFormed(book) && ValidSide(book.bids) && ValidSide(book.asks)
    && (forall i, j :: 0 <= i < j < |book.bids| ==> book.bids[j].price.value <= book.bids[i].price.value)
    && (forall i, j :: 0 <= i < j < |book.asks| ==> book.asks[i].price.value <= book.asks[j].price.value)
    && book.bids[0].price.value <= book.asks[0].price.value
  }

  method ValidateSide(levels: seq<Level>) returns (valid: bool)
    ensures valid == ValidSide(levels)
  {
    for i := 0 to |levels|
      invariant ValidSide(levels[..i])
    {
      if !ValidLevel(levels[i]) { return false; }
    }
    assert levels[..|levels|] == levels;
    valid := true;
  }

  /** The loops compare neighbours only; that orders the whole side. */
  method ValidateOrderBook(book: Book) returns (valid: bool)
    ensures valid == ValidBook(book)
  {
    if !WellFormed(book) { return false; }
    var bidsValid := ValidateSide(book.bids);
    var asksValid := ValidateSide(book.asks);
    if !bidsValid || !asksValid { return false; }
    var i := 1;
    while i < |book.bids|
      invariant 1 <= i <= |book.bids|
      invariant forall j, k :: 0 <= j < k < i ==> book.bids[k].price.value <= book.bids[j].price.value
    {
      if book.bids[i].price.value > book.bids[i - 1].price.value { return false; }
      i := i + 1;
    }
    i := 1;
    while i < |book.asks|
      invariant 1 <= i <= |book.asks|
      invariant forall j, k :: 0 <= j < k < i ==> book.asks[j].price.value <= book.asks[k].price.value
    {
      if book.asks[i].price.value < book.asks[i - 1].price.value { return false; }
      i := i + 1;
    }
    valid := book.asks[0].price.value >= book.bids[0].price.value;
  }

  type ValidOrderBook = b: Book | ValidBook(b) witness SAMPLE

  const SAMPLE := Book("SPY", true, Some(0), Some(0), Some(1), [Level(Some(1.0), Some(1.0))], [Level(Some(1.0), Some(1.0))])

  function Bid(book: ValidOrderBook): real { book.bids[0].price.value }

  function Ask(book: ValidOrderBook): real { book.asks[0].price.value }

  function BidSize(book: ValidOrderBook): (size: real) ensures size >= 0.0 { book.bids[0].size.value }

  function AskSize(book: ValidOrderBook): (size: real) ensures size >= 0.0 { book.asks[0].size.value }

  function TimeOf(book: ValidOrderBook): int { book.timestamp.value }

  function Depth(book: ValidOrderBook): (depth: int) ensures 1 <= depth { book.depth.value }

  function Spread(book: ValidOrderBook): real { Ask(book) - Bid(book) }

  function Midpoint(book: ValidOrderBook): real { (Ask(book) + Bid(book)) / 2.0 }

  // ---------------------------------------------------------------------------
  // Sums
  // ---------------------------------------------------------------------------

  function Abs(x: real): (y: real) ensures y >= 0.0 && y >= x && y >= -x { if x < 0.0 then -x else x }

  function Sign(x: real): int { if x > 0.0 then 1 else if x < 0.0 then -1 else 0 }

  function Count(values: seq<real>, matches: real -> bool): nat {
    if values == [] then 0
    else Count(values[..|values| - 1], matches) + if matches(values[|values| - 1]) then 1 else 0
  }

  function SizeSum(levels: seq<Level>): (sum: real)
    requires ValidSide(levels)
    ensures sum >= 0.0
  {
    if levels == [] then 0.0 else SizeSum(levels[..|levels| - 1]) + levels[|levels| - 1].size.value
  }

  /** The sizes of the first levels of each side. */
  function DepthOf(book: ValidOrderBook, levels: int): Totals {
    var n := if levels < book.depth.value then levels else book.depth.value;
    if n <= 0 then Totals(0.0, 0.0) else Totals(SizeSum(book.bids[..n]), SizeSum(book.asks[..n]))
  }

  function SignSum(sequence: seq<ValidOrderBook>): int {
    if |sequence| < 2 then 0
    else SignSum(sequence[..|sequence| - 1]) + Sign(Midpoint(sequence[|sequence| - 1]) - Midpoint(sequence[|sequence| - 2]))
  }

  /** Net growth of the bid side over the ask side, step by step. */
  function NetFlow(sequence: seq<ValidOrderBook>, levels: int): real {
    if |sequence| < 2 then 0.0
    else
      var (a, b) := (DepthOf(sequence[|sequence| - 2], levels), DepthOf(sequence[|sequence| - 1], levels));
      NetFlow(sequence[..|sequence| - 1], levels) + ((b.bid - a.bid) - (b.ask - a.ask))
  }

  /** All movement on both sides, step by step. */
  function GrossFlow(sequence: seq<ValidOrderBook>, levels: int): (flow: real)
    ensures flow >= 0.0
  {
    if |sequence| < 2 then 0.0
    else
      var (a, b) := (DepthOf(sequence[|sequence| - 2], levels), DepthOf(sequence[|sequence| - 1], levels));
      GrossFlow(sequence[..|sequence| - 1], levels) + (Abs(b.bid - a.bid) + Abs(b.ask - a.ask))
  }

  // ---------------------------------------------------------------------------
  // The indicators over a sequence of books
  // ---------------------------------------------------------------------------

  function PercentileOf(current: real, prior: seq<real>): Option<real> {
    if prior == [] then None
    else Some(100.0 * (Count(prior, v => v < current) as real + 0.5 * Count(prior, v => v == current) as real) / |prior| as real)
  }

  method Percentile(current: real, prior: seq<real>) returns (percentile: Option<real>)
    ensures percentile == PercentileOf(current, prior)
  {
    if |prior| == 0 { return None; }
    var less, equal := 0, 0;
    for i := 0 to |prior|
      invariant less == Count(prior[..i], v => v < current) && equal == Count(prior[..i], v => v == current)
    {
      assert prior[..i + 1][..i] == prior[..i];
      if prior[i] < current { less := less + 1; } else if prior[i] == current { equal := equal + 1; }
    }
    assert prior[..|prior|] == prior;
    percentile := Some(100.0 * (less as real + 0.5 * equal as real) / |prior| as real);
  }

  method DepthTotals(book: ValidOrderBook, levels: int) returns (totals: Totals)
    ensures totals == DepthOf(book, levels)
  {
    var count := if levels < book.depth.value then levels else book.depth.value;
    var bid, ask := 0.0, 0.0;
    var index := 0;
    while index < count
      invariant 0 <= index && (count >= 0 ==> index <= count) && (count < 0 ==> index == 0)
      invariant index <= |book.bids| && index <= |book.asks|
      invariant bid == SizeSum(book.bids[..index]) && ask == SizeSum(book.asks[..index])
    {
      assert book.bids[..index + 1][..index] == book.bids[..index];
      assert book.asks[..index + 1][..index] == book.asks[..index];
      bid := bid + book.bids[index].size.value;
      ask := ask + book.asks[index].size.value;
      index := index + 1;
    }
    totals := Totals(bid, ask);
  }

  function MeanSign(sequence: seq<ValidOrderBook>): Option<real> {
    if |sequence| < 2 then None else Some(SignSum(sequence) as real / (|sequence| - 1) as real)
  }

  method MeanMidpointSign(sequence: seq<ValidOrderBook>) returns (mean: Option<real>)
    ensures mean == MeanSign(sequence)
  {
    if |sequence| < 2 { return None; }
    var sum := 0;
    var index := 1;
    while index < |sequence|
      invariant 1 <= index <= |sequence| && sum == SignSum(sequence[..index])
    {
      assert sequence[..index + 1][..index] == sequence[..index];
      sum := sum + Sign(Midpoint(sequence[index]) - Midpoint(sequence[index - 1]));
      index := index + 1;
    }
    assert sequence[..|sequence|] == sequence;
    mean := Some(sum as real / (|sequence| - 1) as real);
  }

  function PressureOf(sequence: seq<ValidOrderBook>, levels: int): Option<real> {
    if |sequence| < 2 then None
    else if GrossFlow(sequence, levels) == 0.0 then Some(0.0)
    else Some(NetFlow(sequence, levels) / GrossFlow(sequence, levels))
  }

  method Pressure(sequence: seq<ValidOrderBook>, levels: int) returns (pressure: Option<real>)
    ensures pressure == PressureOf(sequence, levels)
  {
    hide DepthOf;
    if |sequence| < 2 { return None; }
    var numerator, denominator := 0.0, 0.0;
    var previous := DepthTotals(sequence[0], levels);
    var index := 1;
    while index < |sequence|
      invariant 1 <= index <= |sequence| && previous == DepthOf(sequence[index - 1], levels)
      invariant numerator == NetFlow(sequence[..index], levels) && denominator == GrossFlow(sequence[..index], levels)
    {
      assert sequence[..index + 1][..index] == sequence[..index];
      var current := DepthTotals(sequence[index], levels);
      var bidDelta := current.bid - previous.bid;
      var askDelta := current.ask - previous.ask;
      numerator := numerator + (bidDelta - askDelta);
      denominator := denominator + (Abs(bidDelta) + Abs(askDelta));
      previous := current;
      index := index + 1;
    }
    assert sequence[..|sequence|] == sequence;
    pressure := Some(if denominator == 0.0 then 0.0 else numerator / denominator);
  }

  /** What disappeared at an unchanged best price. */
  function Used(priceBefore: real, priceAfter: real, sizeBefore: real, sizeAfter: real): (used: real)
    ensures used >= 0.0
  {
    if priceBefore == priceAfter && sizeBefore > sizeAfter then sizeBefore - sizeAfter else 0.0
  }

  function DepletionRatio(bid: real, ask: real): real {
    if bid + ask == 0.0 then 0.0 else (ask - bid) / (bid + ask)
  }

  /** How much of the touch was used up by the last update, asks against bids. */
  function Depletion(sequence: seq<ValidOrderBook>): Option<real> {
    if |sequence| < 2 then None
    else
      var (previous, current) := (sequence[|sequence| - 2], sequence[|sequence| - 1]);
      Some(DepletionRatio(Used(Bid(previous), Bid(current), BidSize(previous), BidSize(current)),
                          Used(Ask(previous), Ask(current), AskSize(previous), AskSize(current))))
  }

  function Imbalance(bid: real, ask: real): Option<real> {
    if bid + ask > 0.0 then Some((bid - ask) / (bid + ask)) else None
  }

  function ClampLevels(requested: Option<int>, depth: int): int {
    var wanted := if requested.Some? && requested.value > 1 then requested.value else 1;
    if depth < wanted then depth else wanted
  }
}
