/** The indicator report of one book, the range of its values, and its symmetry between buyers and sellers. */
module IndicatorReport {
  import opened Wrappers
  import opened Indicators
  import opened Sorting

  // ---------------------------------------------------------------------------
  // Choosing the samples
  // ---------------------------------------------------------------------------

  /** A sample counts when it is a valid earlier book of the same symbol, from open hours of the same session. */
  predicate Counts(sample: Book, current: ValidOrderBook, sessionOf: int -> string, open: int -> bool) {
    && ValidBook(sample) && sample.symbol == current.symbol && open(sample.timestamp.value)
    && sample.timestamp.value < current.timestamp.value
    && sessionOf(sample.timestamp.value) == sessionOf(current.timestamp.value)
  }

  function Counting(history: seq<Book>, current: ValidOrderBook, sessionOf: int -> string, open: int -> bool): seq<ValidOrderBook> {
    if history == [] then []
    else
      var before := Counting(history[..|history| - 1], current, sessionOf, open);
      var sample := history[|history| - 1];
      if Counts(sample, current, sessionOf, open) then before + [sample] else before
  }

  function ByTime(samples: seq<ValidOrderBook>): seq<ValidOrderBook> {
    Sorted(samples, TimeOf)
  }

  function LastSamples(samples: seq<ValidOrderBook>): seq<ValidOrderBook> {
    if |samples| <= MAX_SESSION_SAMPLES then samples else samples[|samples| - MAX_SESSION_SAMPLES..]
  }

  function Since(samples: seq<ValidOrderBook>, from: int): seq<ValidOrderBook> {
    if samples == [] then []
    else
      var before := Since(samples[..|samples| - 1], from);
      if TimeOf(samples[|samples| - 1]) >= from then before + [samples[|samples| - 1]] else before
  }

  function Spreads(samples: seq<ValidOrderBook>): (spreads: seq<real>)
    ensures |spreads| == |samples|
  {
    seq(|samples|, i requires 0 <= i < |samples| => Spread(samples[i]))
  }

  /** The window the report looks at: the session's samples, and those of the last minute with the book itself. */
  function SessionSamples(history: seq<Book>, current: ValidOrderBook, sessionOf: int -> string, open: int -> bool): seq<ValidOrderBook> {
    LastSamples(ByTime(Counting(history, current, sessionOf, open)))
  }

  function RecentSequence(history: seq<Book>, current: ValidOrderBook, sessionOf: int -> string, open: int -> bool): seq<ValidOrderBook> {
    Since(SessionSamples(history, current, sessionOf, open), TimeOf(current) - WINDOW_MS) + [current]
  }

  function ReportOf(current: Book, history: seq<Book>, requested: Option<int>, sessionOf: int -> string, open: int -> bool): Report {
    if !ValidBook(current) then UNAVAILABLE
    else
      var book: ValidOrderBook := current;
      var sequence := RecentSequence(history, book, sessionOf, open);
      var levels := ClampLevels(requested, Depth(book));
      var totals := DepthOf(book, levels);
      Report(
        Some(Spread(book)),
        if Midpoint(book) > 0.0 then Some(Spread(book) / Midpoint(book) * 10_000.0) else None,
        PercentileOf(Spread(book), Spreads(SessionSamples(history, book, sessionOf, open))),
        Imbalance(BidSize(book), AskSize(book)),
        MeanSign(sequence),
        Imbalance(totals.bid, totals.ask),
        PressureOf(sequence, levels),
        Depletion(sequence))
  }

  method DeriveOrderBookIndicators(current: Book, history: seq<Book>, requested: Option<int>, sessionOf: int -> string, open: int -> bool)
    returns (report: Report)
    ensures report == ReportOf(current, history, requested, sessionOf, open)
  {
    hide PercentileOf, MeanSign, PressureOf, Depletion, DepthOf, Imbalance, Spread, Midpoint, Counting, ByTime, LastSamples, Since,
         TimeOf, Depth, ClampLevels, ValidBook, Spreads;
    var valid := ValidateOrderBook(current);
    if !valid { return UNAVAILABLE; }
    var book: ValidOrderBook := current;
    var samples := SessionSamples(history, book, sessionOf, open);
    var sequence := Since(samples, TimeOf(book) - WINDOW_MS) + [book];
    var levels := ClampLevels(requested, Depth(book));
    var percentile := Percentile(Spread(book), Spreads(samples));
    var totals := DepthTotals(book, levels);
    var tick := MeanMidpointSign(sequence);
    var pressure := Pressure(sequence, levels);
    report := Report(
      Some(Spread(book)),
      if Midpoint(book) > 0.0 then Some(Spread(book) / Midpoint(book) * 10_000.0) else None,
      percentile,
      Imbalance(BidSize(book), AskSize(book)),
      tick,
      Imbalance(totals.bid, totals.ask),
      pressure,
      Depletion(sequence));
  }

  // ---------------------------------------------------------------------------
  // The samples chosen
  // ---------------------------------------------------------------------------

  /** Sorting keeps every sample and puts them in time order. */
  lemma ByTimeSorts(samples: seq<ValidOrderBook>)
    ensures forall i, j :: 0 <= i < j < |ByTime(samples)| ==> TimeOf(ByTime(samples)[i]) <= TimeOf(ByTime(samples)[j])
    ensures multiset(ByTime(samples)) == multiset(samples)
  {
    SortedIsInOrder(samples, TimeOf);
  }

  /** A sample that does not count changes nothing, wherever it stands in the history. */
  lemma {:induction false} IdleSampleIsIgnored(before: seq<Book>, sample: Book, after: seq<Book>, current: ValidOrderBook,
                              sessionOf: int -> string, open: int -> bool)
    requires !Counts(sample, current, sessionOf, open)
    ensures Counting(before + [sample] + after, current, sessionOf, open) == Counting(before + after, current, sessionOf, open)
  {
    var whole := before + [sample] + after;
    if after == [] {
      assert whole[..|whole| - 1] == before && before + after == before;
    } else {
      var n := |after| - 1;
      IdleSampleIsIgnored(before, sample, after[..n], current, sessionOf, open);
      assert whole[..|whole| - 1] == before + [sample] + after[..n];
      assert (before + after)[..|before + after| - 1] == before + after[..n];
    }
  }

  lemma ReportIgnoresIdleSample(current: Book, before: seq<Book>, sample: Book, after: seq<Book>, requested: Option<int>,
                                sessionOf: int -> string, open: int -> bool)
    requires ValidBook(current) ==> !Counts(sample, current, sessionOf, open)
    ensures ReportOf(current, before + [sample] + after, requested, sessionOf, open) == ReportOf(current, before + after, requested, sessionOf, open)
  {
    hide PercentileOf, MeanSign, PressureOf, Depletion, DepthOf, Counts;
    if ValidBook(current) { IdleSampleIsIgnored(before, sample, after, current, sessionOf, open); }
  }

  // ---------------------------------------------------------------------------
  // Ranges
  // ---------------------------------------------------------------------------

  predicate Within(low: real, value: Option<real>, high: real) { value.Some? ==> low <= value.value <= high }

  lemma RatioInRange(a: real, b: real)
    requires b > 0.0 && -b <= a <= b
    ensures -1.0 <= a / b <= 1.0
  {
    var r := a / b;
    assert r * b == a;
    if r > 1.0 { ScaleUp(r, b); }
    if -r > 1.0 { ScaleUp(-r, b); }
  }

  lemma ScaleUp(r: real, b: real)
    requires r > 1.0 && b > 0.0
    ensures r * b > b
  {
  }

  lemma {:induction false} CountsFit(values: seq<real>, current: real)
    ensures Count(values, v => v < current) + Count(values, v => v == current) <= |values|
  {
    if values != [] { CountsFit(values[..|values| - 1], current); }
  }

  lemma PercentileInRange(current: real, prior: seq<real>)
    ensures Within(0.0, PercentileOf(current, prior), 100.0)
  {
    if prior != [] {
      CountsFit(prior, current);
      PercentOf(Count(prior, v => v < current), Count(prior, v => v == current), |prior|);
    }
  }

  lemma PercentOf(less: nat, equal: nat, n: nat)
    requires 0 < n && less + equal <= n
    ensures 0.0 <= 100.0 * (less as real + 0.5 * equal as real) / n as real <= 100.0
  {
    var (x, y) := (100.0 * (less as real + 0.5 * equal as real), n as real);
    assert 0.0 <= x <= 100.0 * y;
    QuotientBound(x, y, 100.0);
  }

  lemma QuotientBound(x: real, y: real, k: real)
    requires y > 0.0 && 0.0 <= x <= k * y
    ensures 0.0 <= x / y <= k
  {
    var q := x / y;
    assert q * y == x;
    if q < 0.0 { PositiveProduct(-q, y); }
    if q > k { PositiveProduct(q - k, y); }
  }

  lemma PositiveProduct(a: real, b: real)
    requires a > 0.0 && b > 0.0
    ensures a * b > 0.0
  {
  }

  lemma {:induction false} SignSumFits(sequence: seq<ValidOrderBook>)
    requires |sequence| > 0
    ensures 1 - |sequence| <= SignSum(sequence) <= |sequence| - 1
  {
    if |sequence| > 1 { SignSumFits(sequence[..|sequence| - 1]); }
  }

  /** The triangle inequality over the whole sequence. */
  lemma {:induction false} NetWithinGross(sequence: seq<ValidOrderBook>, levels: int)
    ensures -GrossFlow(sequence, levels) <= NetFlow(sequence, levels) <= GrossFlow(sequence, levels)
  {
    hide DepthOf;
    if |sequence| >= 2 { NetWithinGross(sequence[..|sequence| - 1], levels); }
  }

  lemma SequenceInRange(sequence: seq<ValidOrderBook>, levels: int)
    ensures Within(-1.0, MeanSign(sequence), 1.0)
    ensures Within(-1.0, PressureOf(sequence, levels), 1.0)
    ensures Within(-1.0, Depletion(sequence), 1.0)
  {
    hide SignSum, NetFlow, GrossFlow;
    NetWithinGross(sequence, levels);
    if |sequence| >= 2 {
      SignSumFits(sequence);
      RatioInRange(SignSum(sequence) as real, (|sequence| - 1) as real);
      if GrossFlow(sequence, levels) > 0.0 { RatioInRange(NetFlow(sequence, levels), GrossFlow(sequence, levels)); }
      DepletionInRange(sequence);
    }
  }

  lemma DepletionInRange(sequence: seq<ValidOrderBook>)
    requires |sequence| >= 2
    ensures Within(-1.0, Depletion(sequence), 1.0)
  {
    hide Used;
    var (previous, current) := (sequence[|sequence| - 2], sequence[|sequence| - 1]);
    var bid := Used(Bid(previous), Bid(current), BidSize(previous), BidSize(current));
    var ask := Used(Ask(previous), Ask(current), AskSize(previous), AskSize(current));
    if bid + ask > 0.0 { RatioInRange(ask - bid, bid + ask); }
  }

  lemma ImbalanceInRange(bid: real, ask: real)
    requires bid >= 0.0 && ask >= 0.0
    ensures Within(-1.0, Imbalance(bid, ask), 1.0)
  {
    if bid + ask > 0.0 { RatioInRange(bid - ask, bid + ask); }
  }

  /** For any book, history and requested depth: every value is in its range, and none exists for an invalid book. */
  lemma ReportInRange(current: Book, history: seq<Book>, requested: Option<int>, sessionOf: int -> string, open: int -> bool)
    ensures var report := ReportOf(current, history, requested, sessionOf, open);
            && (report.spreadAbs.Some? <==> ValidBook(current)) && (report.spreadBps.Some? <==> ValidBook(current))
            && (report.spreadAbs.Some? ==> report.spreadAbs.value >= 0.0 && report.spreadBps.value >= 0.0)
            && Within(0.0, report.spreadPercentile, 100.0)
            && Within(-1.0, report.topBookImbalance, 1.0) && Within(-1.0, report.depthImbalance, 1.0)
            && Within(-1.0, report.tickPressure, 1.0) && Within(-1.0, report.cumulativePressure, 1.0)
            && Within(-1.0, report.touchDepletion, 1.0)
  {
    hide PercentileOf, MeanSign, PressureOf, Depletion, DepthOf, Imbalance, RecentSequence, SessionSamples;
    if ValidBook(current) {
      var book: ValidOrderBook := current;
      var levels := ClampLevels(requested, Depth(book));
      PercentileInRange(Spread(book), Spreads(SessionSamples(history, book, sessionOf, open)));
      SequenceInRange(RecentSequence(history, book, sessionOf, open), levels);
      ImbalanceInRange(BidSize(book), AskSize(book));
      TotalsPositive(book, levels);
      ImbalanceInRange(DepthOf(book, levels).bid, DepthOf(book, levels).ask);
      SpreadRatio(Spread(book), Midpoint(book));
    }
  }

  lemma TotalsPositive(book: ValidOrderBook, levels: int)
    ensures DepthOf(book, levels).bid >= 0.0 && DepthOf(book, levels).ask >= 0.0
  {
  }

  lemma SpreadRatio(spread: real, mid: real)
    requires spread >= 0.0 && mid > 0.0
    ensures spread / mid * 10_000.0 >= 0.0
  {
    assert spread / mid >= 0.0;
  }

  // ---------------------------------------------------------------------------
  // Buyers and sellers exchanged
  // ---------------------------------------------------------------------------

  /** Prices are reflected at a ceiling above all of them and the sides change places. */
  function Reflected(level: Level, ceiling: real): Level {
    if level.price.Some? then level.(price := Some(ceiling - level.price.value)) else level
  }

  function ReflectedSide(levels: seq<Level>, ceiling: real): (side: seq<Level>)
    ensures |side| == |levels| && forall i :: 0 <= i < |levels| ==> side[i] == Reflected(levels[i], ceiling)
  {
    seq(|levels|, i requires 0 <= i < |levels| => Reflected(levels[i], ceiling))
  }

  function Mirror(book: Book, ceiling: real): Book {
    book.(bids := ReflectedSide(book.asks, ceiling), asks := ReflectedSide(book.bids, ceiling))
  }

  predicate Below(book: ValidOrderBook, ceiling: real) {
    && (forall i :: 0 <= i < |book.bids| ==> book.bids[i].price.value < ceiling)
    && (forall i :: 0 <= i < |book.asks| ==> book.asks[i].price.value < ceiling)
  }

  predicate AllBelow(sequence: seq<ValidOrderBook>, ceiling: real) {
    forall i :: 0 <= i < |sequence| ==> Below(sequence[i], ceiling)
  }

  lemma MirrorIsValid(book: ValidOrderBook, ceiling: real)
    requires Below(book, ceiling)
    ensures ValidBook(Mirror(book, ceiling))
  {
  }

  function Mirrored(sequence: seq<ValidOrderBook>, ceiling: real): (mirrored: seq<ValidOrderBook>)
    requires AllBelow(sequence, ceiling)
    ensures |mirrored| == |sequence| && forall i :: 0 <= i < |sequence| ==> mirrored[i] == Mirror(sequence[i], ceiling)
  {
    if sequence == [] then []
    else
      MirrorIsValid(sequence[|sequence| - 1], ceiling);
      Mirrored(sequence[..|sequence| - 1], ceiling) + [Mirror(sequence[|sequence| - 1], ceiling)]
  }

  lemma MirroredFront(sequence: seq<ValidOrderBook>, ceiling: real)
    requires AllBelow(sequence, ceiling) && sequence != []
    ensures AllBelow(sequence[..|sequence| - 1], ceiling)
    ensures Mirrored(sequence, ceiling)[..|sequence| - 1] == Mirrored(sequence[..|sequence| - 1], ceiling)
  {
  }

  lemma {:induction false} ReflectionKeepsSizes(levels: seq<Level>, ceiling: real)
    requires ValidSide(levels) && ValidSide(ReflectedSide(levels, ceiling))
    ensures SizeSum(ReflectedSide(levels, ceiling)) == SizeSum(levels)
  {
    if levels != [] {
      var n := |levels| - 1;
      assert ReflectedSide(levels, ceiling)[..n] == ReflectedSide(levels[..n], ceiling);
      ReflectionKeepsSizes(levels[..n], ceiling);
    }
  }

  lemma MirrorSwapsDepth(book: ValidOrderBook, ceiling: real, levels: int)
    requires Below(book, ceiling) && ValidBook(Mirror(book, ceiling))
    ensures DepthOf(Mirror(book, ceiling), levels) == Totals(DepthOf(book, levels).ask, DepthOf(book, levels).bid)
  {
    var mirror: ValidOrderBook := Mirror(book, ceiling);
    var n := if levels < book.depth.value then levels else book.depth.value;
    if n > 0 {
      assert mirror.bids[..n] == ReflectedSide(book.asks[..n], ceiling);
      assert mirror.asks[..n] == ReflectedSide(book.bids[..n], ceiling);
      ReflectionKeepsSizes(book.asks[..n], ceiling);
      ReflectionKeepsSizes(book.bids[..n], ceiling);
    }
  }

  function Negated(value: Option<real>): Option<real> {
    if value.Some? then Some(-value.value) else None
  }

  lemma MirroredEnds(sequence: seq<ValidOrderBook>, ceiling: real)
    requires AllBelow(sequence, ceiling) && |sequence| >= 2
    ensures var mirrored := Mirrored(sequence, ceiling); var (n, front) := (|sequence|, sequence[..|sequence| - 1]);
            && |mirrored| == n && AllBelow(front, ceiling) && mirrored[..n - 1] == Mirrored(front, ceiling)
            && Below(sequence[n - 1], ceiling) && Below(sequence[n - 2], ceiling)
            && mirrored[n - 1] == Mirror(sequence[n - 1], ceiling) && mirrored[n - 2] == Mirror(sequence[n - 2], ceiling)
  {
    MirroredFront(sequence, ceiling);
  }

  lemma {:induction false} MirrorNegatesSigns(sequence: seq<ValidOrderBook>, ceiling: real)
    requires AllBelow(sequence, ceiling)
    ensures SignSum(Mirrored(sequence, ceiling)) == -SignSum(sequence)
  {
    hide Mirror, Mirrored, AllBelow, Below, ValidBook, Midpoint;
    if |sequence| >= 2 {
      MirroredEnds(sequence, ceiling);
      MirrorNegatesSigns(sequence[..|sequence| - 1], ceiling);
      MirrorMidpoint(sequence[|sequence| - 1], ceiling);
      MirrorMidpoint(sequence[|sequence| - 2], ceiling);
    }
  }

  lemma MirrorMidpoint(book: ValidOrderBook, ceiling: real)
    requires Below(book, ceiling)
    ensures ValidBook(Mirror(book, ceiling)) && Midpoint(Mirror(book, ceiling)) == ceiling - Midpoint(book)
    ensures Spread(Mirror(book, ceiling)) == Spread(book)
  {
    MirrorIsValid(book, ceiling);
  }

  lemma {:induction false} MirrorNegatesFlow(sequence: seq<ValidOrderBook>, ceiling: real, levels: int)
    requires AllBelow(sequence, ceiling)
    ensures NetFlow(Mirrored(sequence, ceiling), levels) == -NetFlow(sequence, levels)
    ensures GrossFlow(Mirrored(sequence, ceiling), levels) == GrossFlow(sequence, levels)
  {
    hide DepthOf, Mirror, Mirrored, AllBelow, Below, ValidBook;
    if |sequence| >= 2 {
      var (a, b) := (sequence[|sequence| - 2], sequence[|sequence| - 1]);
      MirroredEnds(sequence, ceiling);
      MirrorNegatesFlow(sequence[..|sequence| - 1], ceiling, levels);
      MirrorIsValid(a, ceiling);
      MirrorIsValid(b, ceiling);
      MirrorSwapsDepth(a, ceiling, levels);
      MirrorSwapsDepth(b, ceiling, levels);
    }
  }

  lemma NegatedRatio(a: real, b: real)
    requires b != 0.0
    ensures (-a) / b == -(a / b)
  {
  }

  lemma MirrorNegatesDepletion(sequence: seq<ValidOrderBook>, ceiling: real)
    requires AllBelow(sequence, ceiling)
    ensures Depletion(Mirrored(sequence, ceiling)) == Negated(Depletion(sequence))
  {
    hide Mirror, Mirrored, AllBelow, Below, Bid, Ask, BidSize, AskSize, Used, DepletionRatio, ValidBook;
    if |sequence| >= 2 {
      var (previous, current) := (sequence[|sequence| - 2], sequence[|sequence| - 1]);
      MirroredEnds(sequence, ceiling);
      MirrorTouch(previous, ceiling);
      MirrorTouch(current, ceiling);
      var bid := Used(Bid(previous), Bid(current), BidSize(previous), BidSize(current));
      var ask := Used(Ask(previous), Ask(current), AskSize(previous), AskSize(current));
      ReflectedUse(Ask(previous), Ask(current), AskSize(previous), AskSize(current), ceiling);
      ReflectedUse(Bid(previous), Bid(current), BidSize(previous), BidSize(current), ceiling);
      SwappedDepletion(bid, ask);
    }
  }

  lemma ReflectedUse(priceBefore: real, priceAfter: real, sizeBefore: real, sizeAfter: real, ceiling: real)
    ensures Used(ceiling - priceBefore, ceiling - priceAfter, sizeBefore, sizeAfter) == Used(priceBefore, priceAfter, sizeBefore, sizeAfter)
  {
  }

  lemma SwappedDepletion(bid: real, ask: real)
    ensures DepletionRatio(ask, bid) == -DepletionRatio(bid, ask)
  {
    if bid + ask != 0.0 { NegatedRatio(ask - bid, bid + ask); }
  }

  lemma MirrorTouch(book: ValidOrderBook, ceiling: real)
    requires Below(book, ceiling)
    ensures ValidBook(Mirror(book, ceiling))
    ensures var mirror: ValidOrderBook := Mirror(book, ceiling);
            && Bid(mirror) == ceiling - Ask(book) && Ask(mirror) == ceiling - Bid(book)
            && BidSize(mirror) == AskSize(book) && AskSize(mirror) == BidSize(book)
  {
    MirrorIsValid(book, ceiling);
  }

  lemma MirrorNegatesMeans(sequence: seq<ValidOrderBook>, ceiling: real, levels: int)
    requires AllBelow(sequence, ceiling)
    ensures MeanSign(Mirrored(sequence, ceiling)) == Negated(MeanSign(sequence))
    ensures PressureOf(Mirrored(sequence, ceiling), levels) == Negated(PressureOf(sequence, levels))
  {
    hide SignSum, NetFlow, GrossFlow, Mirror, AllBelow, ValidBook;
    MirrorNegatesSigns(sequence, ceiling);
    MirrorNegatesFlow(sequence, ceiling, levels);
    if |sequence| >= 2 {
      NegatedRatio(SignSum(sequence) as real, (|sequence| - 1) as real);
      if GrossFlow(sequence, levels) != 0.0 { NegatedRatio(NetFlow(sequence, levels), GrossFlow(sequence, levels)); }
    }
  }

  lemma SwappedImbalance(bid: real, ask: real)
    ensures Imbalance(ask, bid) == Negated(Imbalance(bid, ask))
  {
    if bid + ask > 0.0 { NegatedRatio(bid - ask, bid + ask); }
  }

  /** Exchanging buyers and sellers turns every directional indicator into its negative and keeps the spread. */
  lemma MirrorSymmetry(sequence: seq<ValidOrderBook>, book: ValidOrderBook, ceiling: real, levels: int)
    requires AllBelow(sequence, ceiling) && Below(book, ceiling)
    ensures MeanSign(Mirrored(sequence, ceiling)) == Negated(MeanSign(sequence))
    ensures PressureOf(Mirrored(sequence, ceiling), levels) == Negated(PressureOf(sequence, levels))
    ensures Depletion(Mirrored(sequence, ceiling)) == Negated(Depletion(sequence))
    ensures ValidBook(Mirror(book, ceiling)) && Spread(Mirror(book, ceiling)) == Spread(book)
    ensures Imbalance(BidSize(Mirror(book, ceiling)), AskSize(Mirror(book, ceiling))) == Negated(Imbalance(BidSize(book), AskSize(book)))
    ensures var totals := DepthOf(book, levels); var mirrored := DepthOf(Mirror(book, ceiling), levels);
            Imbalance(mirrored.bid, mirrored.ask) == Negated(Imbalance(totals.bid, totals.ask))
  {
    MirrorMidpoint(book, ceiling);
    hide SignSum, NetFlow, GrossFlow, DepthOf, Mirror, MeanSign, PressureOf, Depletion, Mirrored, AllBelow, Below, ValidBook, Imbalance,
         BidSize, AskSize, Spread;
    MirrorNegatesMeans(sequence, ceiling, levels);
    MirrorNegatesDepletion(sequence, ceiling);
    MirrorSwapsDepth(book, ceiling, levels);
    SwappedImbalance(DepthOf(book, levels).bid, DepthOf(book, levels).ask);
    MirrorTouch(book, ceiling);
    SwappedImbalance(BidSize(book), AskSize(book));
  }

  // ---------------------------------------------------------------------------
  // The whole report with buyers and sellers exchanged
  // ---------------------------------------------------------------------------

  predicate HistoryBelow(history: seq<Book>, ceiling: real) {
    forall i :: 0 <= i < |history| && ValidBook(history[i]) ==> Below(history[i], ceiling)
  }

  /** The history with every valid book mirrored; a book that is not valid never counts and stays as it is. */
  function Flipped(history: seq<Book>, ceiling: real): (flipped: seq<Book>)
    ensures |flipped| == |history|
  {
    seq(|history|, i requires 0 <= i < |history| => if ValidBook(history[i]) then Mirror(history[i], ceiling) else history[i])
  }

  lemma FlipKeepsCounts(sample: Book, current: ValidOrderBook, ceiling: real, sessionOf: int -> string, open: int -> bool)
    requires Below(current, ceiling) && ValidBook(sample) && Below(sample, ceiling) && ValidBook(Mirror(current, ceiling))
    ensures Counts(Mirror(sample, ceiling), Mirror(current, ceiling), sessionOf, open) == Counts(sample, current, sessionOf, open)
  {
    MirrorIsValid(sample, ceiling);
  }

  lemma MirroredAppend(samples: seq<ValidOrderBook>, sample: ValidOrderBook, ceiling: real)
    requires AllBelow(samples, ceiling) && Below(sample, ceiling)
    ensures ValidBook(Mirror(sample, ceiling)) && AllBelow(samples + [sample], ceiling)
    ensures Mirrored(samples + [sample], ceiling) == Mirrored(samples, ceiling) + [Mirror(sample, ceiling)]
  {
    MirrorIsValid(sample, ceiling);
    assert (samples + [sample])[..|samples|] == samples;
  }

  lemma {:induction false} CountingFlips(history: seq<Book>, current: ValidOrderBook, ceiling: real, sessionOf: int -> string, open: int -> bool)
    requires HistoryBelow(history, ceiling) && Below(current, ceiling) && ValidBook(Mirror(current, ceiling))
    ensures AllBelow(Counting(history, current, sessionOf, open), ceiling)
    ensures Counting(Flipped(history, ceiling), Mirror(current, ceiling), sessionOf, open) ==
            Mirrored(Counting(history, current, sessionOf, open), ceiling)
  {
    hide ValidBook, Below, Mirror, Mirrored, AllBelow;
    if history == [] {
      NoneMirrored(ceiling);
    } else {
      var (n, sample) := (|history| - 1, history[|history| - 1]);
      CountingFlips(history[..n], current, ceiling, sessionOf, open);
      assert Flipped(history, ceiling)[..n] == Flipped(history[..n], ceiling);
      if ValidBook(sample) {
        FlipKeepsCounts(sample, current, ceiling, sessionOf, open);
        MirroredAppend(Counting(history[..n], current, sessionOf, open), sample, ceiling);
      }
    }
  }

  lemma NoneMirrored(ceiling: real)
    ensures AllBelow([], ceiling) && Mirrored([], ceiling) == []
  {
  }

  lemma MirrorKeepsTime(book: ValidOrderBook, ceiling: real)
    requires Below(book, ceiling)
    ensures ValidBook(Mirror(book, ceiling)) && TimeOf(Mirror(book, ceiling)) == TimeOf(book)
    ensures Depth(Mirror(book, ceiling)) == Depth(book)
  {
    MirrorIsValid(book, ceiling);
  }

  lemma MirroredLast(samples: seq<ValidOrderBook>, ceiling: real)
    requires AllBelow(samples, ceiling) && samples != []
    ensures var n := |samples| - 1;
            && AllBelow(samples[..n], ceiling) && Below(samples[n], ceiling) && ValidBook(Mirror(samples[n], ceiling))
            && Mirrored(samples, ceiling)[n] == Mirror(samples[n], ceiling)
            && Mirrored(samples, ceiling)[..n] == Mirrored(samples[..n], ceiling)
  {
    MirrorIsValid(samples[|samples| - 1], ceiling);
  }

  lemma {:induction false} InsertedMirrors(sorted: seq<ValidOrderBook>, sample: ValidOrderBook, ceiling: real)
    requires AllBelow(sorted, ceiling) && Below(sample, ceiling)
    ensures ValidBook(Mirror(sample, ceiling)) && AllBelow(Inserted(sorted, sample, TimeOf), ceiling)
    ensures Inserted<ValidOrderBook>(Mirrored(sorted, ceiling), Mirror(sample, ceiling), TimeOf) == Mirrored(Inserted(sorted, sample, TimeOf), ceiling)
  {
    hide ValidBook, Below, Mirror, Mirrored, AllBelow, TimeOf, Depth;
    MirroredAppend(sorted, sample, ceiling);
    if sorted != [] {
      var n := |sorted| - 1;
      MirroredLast(sorted, ceiling);
      MirrorKeepsTime(sorted[n], ceiling);
      MirrorKeepsTime(sample, ceiling);
      InsertedMirrors(sorted[..n], sample, ceiling);
      MirroredAppend(Inserted(sorted[..n], sample, TimeOf), sorted[n], ceiling);
    }
  }

  lemma {:induction false} ByTimeMirrors(samples: seq<ValidOrderBook>, ceiling: real)
    requires AllBelow(samples, ceiling)
    ensures AllBelow(ByTime(samples), ceiling) && ByTime(Mirrored(samples, ceiling)) == Mirrored(ByTime(samples), ceiling)
  {
    hide ValidBook, Below, Mirror, Mirrored, AllBelow, Inserted;
    if samples == [] {
      NoneMirrored(ceiling);
    } else {
      MirroredLast(samples, ceiling);
      ByTimeMirrors(samples[..|samples| - 1], ceiling);
      InsertedMirrors(ByTime(samples[..|samples| - 1]), samples[|samples| - 1], ceiling);
    }
  }

  lemma LastSamplesMirror(samples: seq<ValidOrderBook>, ceiling: real)
    requires AllBelow(samples, ceiling)
    ensures AllBelow(LastSamples(samples), ceiling) && LastSamples(Mirrored(samples, ceiling)) == Mirrored(LastSamples(samples), ceiling)
  {
    hide ValidBook, Below, Mirror, Mirrored, AllBelow;
    if |samples| > MAX_SESSION_SAMPLES { MirroredSuffix(samples, |samples| - MAX_SESSION_SAMPLES, ceiling); }
  }

  lemma MirroredSuffix(samples: seq<ValidOrderBook>, n: nat, ceiling: real)
    requires AllBelow(samples, ceiling) && n <= |samples|
    ensures AllBelow(samples[n..], ceiling) && Mirrored(samples, ceiling)[n..] == Mirrored(samples[n..], ceiling)
  {
    hide ValidBook, Below, Mirror, Mirrored;
    var (whole, suffix) := (Mirrored(samples, ceiling), Mirrored(samples[n..], ceiling));
    forall i | 0 <= i < |suffix| ensures whole[n + i] == suffix[i] { assert samples[n..][i] == samples[n + i]; }
  }

  lemma {:induction false} SinceMirrors(samples: seq<ValidOrderBook>, from: int, ceiling: real)
    requires AllBelow(samples, ceiling)
    ensures AllBelow(Since(samples, from), ceiling) && Since(Mirrored(samples, ceiling), from) == Mirrored(Since(samples, from), ceiling)
  {
    hide ValidBook, Below, Mirror, Mirrored, AllBelow, TimeOf, Depth;
    if samples == [] {
      NoneMirrored(ceiling);
    } else {
      var n := |samples| - 1;
      MirroredLast(samples, ceiling);
      MirrorKeepsTime(samples[n], ceiling);
      SinceMirrors(samples[..n], from, ceiling);
      MirroredAppend(Since(samples[..n], from), samples[n], ceiling);
    }
  }

  lemma SpreadsStay(samples: seq<ValidOrderBook>, ceiling: real)
    requires AllBelow(samples, ceiling)
    ensures Spreads(Mirrored(samples, ceiling)) == Spreads(samples)
  {
    forall i | 0 <= i < |samples| ensures Spread(Mirrored(samples, ceiling)[i]) == Spread(samples[i]) {
      MirrorMidpoint(samples[i], ceiling);
    }
  }

  lemma SessionSamplesMirror(history: seq<Book>, current: ValidOrderBook, ceiling: real, sessionOf: int -> string, open: int -> bool)
    requires HistoryBelow(history, ceiling) && Below(current, ceiling) && ValidBook(Mirror(current, ceiling))
    ensures var samples := SessionSamples(history, current, sessionOf, open);
            && AllBelow(samples, ceiling)
            && SessionSamples(Flipped(history, ceiling), Mirror(current, ceiling), sessionOf, open) == Mirrored(samples, ceiling)
  {
    hide ValidBook, Below, Mirror, Mirrored, AllBelow, Counting, ByTime, LastSamples;
    CountingFlips(history, current, ceiling, sessionOf, open);
    ByTimeMirrors(Counting(history, current, sessionOf, open), ceiling);
    LastSamplesMirror(ByTime(Counting(history, current, sessionOf, open)), ceiling);
  }

  lemma RecentSequenceMirrors(history: seq<Book>, current: ValidOrderBook, ceiling: real, sessionOf: int -> string, open: int -> bool)
    requires HistoryBelow(history, ceiling) && Below(current, ceiling) && ValidBook(Mirror(current, ceiling))
    ensures var sequence := RecentSequence(history, current, sessionOf, open);
            && AllBelow(sequence, ceiling)
            && RecentSequence(Flipped(history, ceiling), Mirror(current, ceiling), sessionOf, open) == Mirrored(sequence, ceiling)
  {
    hide ValidBook, Below, Mirror, Mirrored, AllBelow, SessionSamples, Since, TimeOf, Depth;
    SessionSamplesMirror(history, current, ceiling, sessionOf, open);
    MirrorKeepsTime(current, ceiling);
    var (samples, from) := (SessionSamples(history, current, sessionOf, open), TimeOf(current) - WINDOW_MS);
    SinceMirrors(samples, from, ceiling);
    MirroredAppend(Since(samples, from), current, ceiling);
  }

  /**
   Exchanging buyers and sellers in the book and in its whole history turns every directional
   indicator of the report into its negative, and keeps the spread and its percentile.
   */
  lemma MirroredReport(current: Book, history: seq<Book>, ceiling: real, requested: Option<int>, sessionOf: int -> string, open: int -> bool)
    requires ValidBook(current) && Below(current, ceiling) && HistoryBelow(history, ceiling)
    ensures var report := ReportOf(current, history, requested, sessionOf, open);
            var mirrored := ReportOf(Mirror(current, ceiling), Flipped(history, ceiling), requested, sessionOf, open);
            && mirrored.spreadAbs == report.spreadAbs && mirrored.spreadPercentile == report.spreadPercentile
            && mirrored.topBookImbalance == Negated(report.topBookImbalance)
            && mirrored.depthImbalance == Negated(report.depthImbalance)
            && mirrored.tickPressure == Negated(report.tickPressure)
            && mirrored.cumulativePressure == Negated(report.cumulativePressure)
            && mirrored.touchDepletion == Negated(report.touchDepletion)
  {
    var book: ValidOrderBook := current;
    MirrorIsValid(book, ceiling);
    hide ValidBook, Below, Mirror, Mirrored, AllBelow, SessionSamples, RecentSequence, DepthOf, Imbalance, PercentileOf, MeanSign, PressureOf,
         Depletion, Spread, Spreads, BidSize, AskSize, TimeOf, Depth, Flipped, Midpoint;
    MirrorKeepsTime(book, ceiling);
    var levels := ClampLevels(requested, Depth(book));
    SessionSamplesMirror(history, book, ceiling, sessionOf, open);
    RecentSequenceMirrors(history, book, ceiling, sessionOf, open);
    SpreadsStay(SessionSamples(history, book, sessionOf, open), ceiling);
    MirrorSymmetry(RecentSequence(history, book, sessionOf, open), book, ceiling, levels);
  }
}
