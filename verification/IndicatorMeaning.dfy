/** What each order book indicator says of the books it is computed from: counts, signs, telescoping sums, and the window of samples. */
module IndicatorMeaning {
  import opened Wrappers
  import opened Indicators
  import opened IndicatorReport

  // ---------------------------------------------------------------------------
  // Prices and sizes
  // ---------------------------------------------------------------------------

  /** The spread leads from the bid to the ask, the midpoint lies half way, and the basis points relate the two. */
  lemma TouchMeans(book: ValidOrderBook, history: seq<Book>, requested: Option<int>, sessionOf: int -> string, open: int -> bool)
    ensures var report := ReportOf(book, history, requested, sessionOf, open);
            && report.spreadAbs.Some? && book.bids[0].price.value + report.spreadAbs.value == book.asks[0].price.value
            && report.spreadBps.Some?
            && report.spreadBps.value * ((book.bids[0].price.value + book.asks[0].price.value) / 2.0) == 10_000.0 * report.spreadAbs.value
  {
    hide PercentileOf, MeanSign, PressureOf, Depletion, DepthOf, Imbalance, RecentSequence, SessionSamples, Spreads, ClampLevels;
    var (bid, ask) := (Bid(book), Ask(book));
    assert ValidLevel(book.bids[0]) && ValidLevel(book.asks[0]);
    BasisPoints(ask - bid, (ask + bid) / 2.0);
  }

  lemma BasisPoints(spread: real, mid: real)
    requires mid > 0.0
    ensures spread / mid * 10_000.0 * mid == 10_000.0 * spread
  {
    QuotientTimes(spread, mid);
  }

  /** An imbalance is positive exactly when the bids outweigh the asks, and weighs the two against each other in proportion. */
  lemma ImbalanceMeans(bid: real, ask: real)
    requires bid >= 0.0 && ask >= 0.0
    ensures Imbalance(bid, ask).None? <==> bid == 0.0 && ask == 0.0
    ensures Imbalance(bid, ask).Some? ==>
              var v := Imbalance(bid, ask).value;
              && (v > 0.0 <==> bid > ask) && (v < 0.0 <==> bid < ask)
              && (v == 1.0 <==> ask == 0.0) && (v == -1.0 <==> bid == 0.0)
              && (1.0 + v) * ask == (1.0 - v) * bid
  {
    if bid + ask > 0.0 {
      var (n, v) := (bid + ask, (bid - ask) / (bid + ask));
      assert v * n == bid - ask;
      SignOfQuotient(v, n, bid - ask);
      assert (1.0 + v) * ask - (1.0 - v) * bid == v * n + (ask - bid);
      SignOfQuotient(v - 1.0, n, -2.0 * ask) by { assert (v - 1.0) * n == v * n - n; }
      SignOfQuotient(v + 1.0, n, 2.0 * bid) by { assert (v + 1.0) * n == v * n + n; }
    }
  }

  lemma SignOfQuotient(v: real, n: real, d: real)
    requires n > 0.0 && v * n == d
    ensures (v > 0.0 <==> d > 0.0) && (v < 0.0 <==> d < 0.0)
  {
    if v > 0.0 { assert v * n > 0.0; }
    if v < 0.0 { assert v * n < 0.0; }
  }

  /** One level more adds that level's sizes, none below the first, and nothing past the depth of the book. */
  lemma DepthStep(book: ValidOrderBook, levels: int)
    ensures levels <= 0 ==> DepthOf(book, levels) == Totals(0.0, 0.0)
    ensures 0 <= levels < book.depth.value ==>
              DepthOf(book, levels + 1) == Totals(DepthOf(book, levels).bid + book.bids[levels].size.value,
                                                  DepthOf(book, levels).ask + book.asks[levels].size.value)
    ensures levels >= book.depth.value ==> DepthOf(book, levels) == DepthOf(book, book.depth.value)
  {
    if 0 <= levels < book.depth.value {
      assert book.bids[..levels + 1][..levels] == book.bids[..levels] && book.asks[..levels + 1][..levels] == book.asks[..levels];
      assert SizeSum(book.bids[..0]) == 0.0 && SizeSum(book.asks[..0]) == 0.0;
    }
  }

  /** Without a readable request one level counts; a request beyond the depth of the book gets the depth. */
  lemma LevelsMean(requested: Option<int>, depth: int)
    requires depth >= 1
    ensures var levels := Indicators.ClampLevels(requested, depth);
            match requested
            case Some(n) => levels == if n < 1 then 1 else if n <= depth then n else depth
            case None => levels == 1
  {
  }

  // ---------------------------------------------------------------------------
  // Counting
  // ---------------------------------------------------------------------------

  function Matching(values: seq<real>, matches: real -> bool): set<nat> {
    set i: nat | i < |values| && matches(values[i])
  }

  lemma {:induction false} CountIsSize(values: seq<real>, matches: real -> bool)
    ensures Count(values, matches) == |Matching(values, matches)|
  {
    if values == [] {
      assert Matching(values, matches) == {};
    } else {
      var n := |values| - 1;
      CountIsSize(values[..n], matches);
      var before := Matching(values[..n], matches);
      assert n !in before;
      assert Matching(values, matches) == before + if matches(values[n]) then {n} else {};
    }
  }

  /** The mid-rank: a hundred times the share of earlier spreads below this one, equal ones counting half. */
  lemma PercentileMeans(current: real, prior: seq<real>)
    ensures PercentileOf(current, prior).None? <==> |prior| == 0
    ensures |prior| > 0 ==>
              PercentileOf(current, prior).value * |prior| as real ==
              100.0 * (|set i: nat | i < |prior| && prior[i] < current| as real + 0.5 * |set i: nat | i < |prior| && prior[i] == current| as real)
  {
    hide Count, Matching;
    if |prior| > 0 {
      CountIsSize(prior, v => v < current);
      CountIsSize(prior, v => v == current);
      MatchingSets(current, prior);
      var (less, equal) := (Count(prior, v => v < current), Count(prior, v => v == current));
      QuotientTimes(100.0 * (less as real + 0.5 * equal as real), |prior| as real);
    }
  }

  lemma MatchingSets(current: real, prior: seq<real>)
    ensures Matching(prior, v => v < current) == set i: nat | i < |prior| && prior[i] < current
    ensures Matching(prior, v => v == current) == set i: nat | i < |prior| && prior[i] == current
  {
  }

  /** Update i raised the midpoint, or lowered it. */
  predicate Rose(sequence: seq<ValidOrderBook>, i: nat) {
    0 < i < |sequence| && Midpoint(sequence[i]) > Midpoint(sequence[i - 1])
  }

  predicate Fell(sequence: seq<ValidOrderBook>, i: nat) {
    0 < i < |sequence| && Midpoint(sequence[i]) < Midpoint(sequence[i - 1])
  }

  function Rises(sequence: seq<ValidOrderBook>): set<nat> {
    set i: nat | i < |sequence| && Rose(sequence, i)
  }

  function Falls(sequence: seq<ValidOrderBook>): set<nat> {
    set i: nat | i < |sequence| && Fell(sequence, i)
  }

  lemma FrontMoves(sequence: seq<ValidOrderBook>, i: nat)
    requires i + 1 < |sequence|
    ensures Rose(sequence[..|sequence| - 1], i) <==> Rose(sequence, i)
    ensures Fell(sequence[..|sequence| - 1], i) <==> Fell(sequence, i)
  {
    hide Midpoint;
  }

  lemma {:induction false} SignSumCounts(sequence: seq<ValidOrderBook>)
    ensures SignSum(sequence) == |Rises(sequence)| - |Falls(sequence)|
  {
    if |sequence| < 2 {
      NoMoves(sequence);
      assert Rises(sequence) == {} && Falls(sequence) == {};
    } else {
      hide Rises, Falls, Rose, Fell, SignSum;
      SignSumCounts(sequence[..|sequence| - 1]);
      OneMoreMove(sequence);
      LastMove(sequence);
    }
  }

  lemma OneMoreMove(sequence: seq<ValidOrderBook>)
    requires |sequence| >= 2
    ensures var n := |sequence| - 1;
            && |Rises(sequence)| == |Rises(sequence[..n])| + (if Rose(sequence, n) then 1 else 0)
            && |Falls(sequence)| == |Falls(sequence[..n])| + (if Fell(sequence, n) then 1 else 0)
  {
    hide Midpoint, Rose, Fell;
    var n := |sequence| - 1;
    var front := sequence[..n];
    forall i: nat | i < n ensures (Rose(front, i) <==> Rose(sequence, i)) && (Fell(front, i) <==> Fell(sequence, i)) { FrontMoves(sequence, i); }
    assert Rises(sequence) == Rises(front) + if Rose(sequence, n) then {n} else {};
    assert Falls(sequence) == Falls(front) + if Fell(sequence, n) then {n} else {};
  }

  lemma NoMoves(sequence: seq<ValidOrderBook>)
    requires |sequence| < 2
    ensures forall i: nat :: !Rose(sequence, i) && !Fell(sequence, i)
  {
  }

  lemma LastMove(sequence: seq<ValidOrderBook>)
    requires |sequence| >= 2
    ensures var n := |sequence| - 1;
            SignSum(sequence) == SignSum(sequence[..n]) + (if Rose(sequence, n) then 1 else 0) - if Fell(sequence, n) then 1 else 0
    ensures !(Rose(sequence, |sequence| - 1) && Fell(sequence, |sequence| - 1))
  {
    hide Midpoint;
  }

  /** Tick pressure: updates that raised the midpoint less those that lowered it, as a share of all updates. */
  lemma TickPressureMeans(sequence: seq<ValidOrderBook>)
    ensures MeanSign(sequence).None? <==> |sequence| < 2
    ensures |sequence| >= 2 ==> MeanSign(sequence).value * (|sequence| - 1) as real == (|Rises(sequence)| - |Falls(sequence)|) as real
  {
    hide SignSum, Rises, Falls;
    SignSumCounts(sequence);
    if |sequence| >= 2 { QuotientTimes(SignSum(sequence) as real, (|sequence| - 1) as real); }
  }

  lemma QuotientTimes(x: real, y: real)
    requires y > 0.0
    ensures x / y * y == x
  {
  }

  // ---------------------------------------------------------------------------
  // Flow
  // ---------------------------------------------------------------------------

  /** The net flow telescopes: only the first and the last book count. */
  lemma {:induction false} NetFlowTelescopes(sequence: seq<ValidOrderBook>, levels: int)
    requires sequence != []
    ensures var (a, b) := (DepthOf(sequence[0], levels), DepthOf(sequence[|sequence| - 1], levels));
            NetFlow(sequence, levels) == (b.bid - b.ask) - (a.bid - a.ask)
  {
    hide DepthOf;
    if |sequence| > 1 { NetFlowTelescopes(sequence[..|sequence| - 1], levels); }
  }

  /** Update i moved, if at all, towards the buyers: the bids grew or stayed and the asks shrank or stayed. */
  predicate Buying(sequence: seq<ValidOrderBook>, levels: int, i: nat) {
    0 < i < |sequence| ==>
      var (a, b) := (DepthOf(sequence[i - 1], levels), DepthOf(sequence[i], levels)); a.bid <= b.bid && b.ask <= a.ask
  }

  /** Update i left the sizes of both sides as they were. */
  predicate Idle(sequence: seq<ValidOrderBook>, levels: int, i: nat) {
    0 < i < |sequence| ==> DepthOf(sequence[i - 1], levels) == DepthOf(sequence[i], levels)
  }

  lemma FrontUpdates(sequence: seq<ValidOrderBook>, levels: int)
    requires |sequence| >= 2
    ensures var n := |sequence| - 1;
            && ((forall i :: Buying(sequence, levels, i)) <==> (forall i :: Buying(sequence[..n], levels, i)) && Buying(sequence, levels, n))
            && ((forall i :: Idle(sequence, levels, i)) <==> (forall i :: Idle(sequence[..n], levels, i)) && Idle(sequence, levels, n))
  {
    hide DepthOf, Buying, Idle;
    var n := |sequence| - 1;
    forall i: nat
      ensures i < n ==> (Buying(sequence, levels, i) <==> Buying(sequence[..n], levels, i)) && (Idle(sequence, levels, i) <==> Idle(sequence[..n], levels, i))
      ensures i >= n ==> Buying(sequence[..n], levels, i) && Idle(sequence[..n], levels, i)
      ensures i > n ==> Buying(sequence, levels, i) && Idle(sequence, levels, i)
    {
      OneUpdate(sequence, levels, i);
    }
  }

  lemma OneUpdate(sequence: seq<ValidOrderBook>, levels: int, i: nat)
    requires |sequence| >= 2
    ensures var n := |sequence| - 1;
            && (i < n ==> (Buying(sequence, levels, i) <==> Buying(sequence[..n], levels, i)) && (Idle(sequence, levels, i) <==> Idle(sequence[..n], levels, i)))
            && (i >= n ==> Buying(sequence[..n], levels, i) && Idle(sequence[..n], levels, i))
            && (i > n ==> Buying(sequence, levels, i) && Idle(sequence, levels, i))
  {
    hide DepthOf;
  }

  lemma {:induction false} FlowLimits(sequence: seq<ValidOrderBook>, levels: int)
    ensures NetFlow(sequence, levels) <= GrossFlow(sequence, levels)
    ensures NetFlow(sequence, levels) == GrossFlow(sequence, levels) <==> forall i :: Buying(sequence, levels, i)
    ensures GrossFlow(sequence, levels) == 0.0 <==> forall i :: Idle(sequence, levels, i)
  {
    hide DepthOf, Buying, Idle;
    if |sequence| < 2 {
      NoUpdates(sequence, levels);
    } else {
      FlowLimits(sequence[..|sequence| - 1], levels);
      FrontUpdates(sequence, levels);
      LastFlow(sequence, levels);
    }
  }

  lemma NoUpdates(sequence: seq<ValidOrderBook>, levels: int)
    requires |sequence| < 2
    ensures forall i :: Buying(sequence, levels, i) && Idle(sequence, levels, i)
  {
  }

  lemma LastFlow(sequence: seq<ValidOrderBook>, levels: int)
    requires |sequence| >= 2
    ensures var n := |sequence| - 1; var front := sequence[..n];
            var (net, gross) := (NetFlow(sequence, levels) - NetFlow(front, levels), GrossFlow(sequence, levels) - GrossFlow(front, levels));
            net <= gross && gross >= 0.0 && (net == gross <==> Buying(sequence, levels, n)) && (gross == 0.0 <==> Idle(sequence, levels, n))
  {
    hide DepthOf;
  }

  /**
   The cumulative pressure is 1 exactly when some size moved and all of it towards the buyers, 0 when
   nothing moved, and otherwise has the sign of what the last book gained over the first.
   */
  lemma CumulativePressureMeans(sequence: seq<ValidOrderBook>, levels: int)
    ensures PressureOf(sequence, levels).None? <==> |sequence| < 2
    ensures |sequence| >= 2 ==>
              var v := PressureOf(sequence, levels).value;
              var (a, b) := (DepthOf(sequence[0], levels), DepthOf(sequence[|sequence| - 1], levels));
              var moved := exists i :: !Idle(sequence, levels, i);
              && (v == 1.0 <==> moved && forall i :: Buying(sequence, levels, i))
              && (v > 0.0 <==> b.bid - b.ask > a.bid - a.ask) && (v < 0.0 <==> b.bid - b.ask < a.bid - a.ask)
  {
    if |sequence| >= 2 {
      hide DepthOf, Buying, Idle, NetFlow, GrossFlow;
      FlowLimits(sequence, levels);
      NetFlowTelescopes(sequence, levels);
      var (net, gross) := (NetFlow(sequence, levels), GrossFlow(sequence, levels));
      NetWithinGross(sequence, levels);
      if gross != 0.0 { PressureQuotient(net, gross); }
    }
  }

  lemma PressureQuotient(net: real, gross: real)
    requires gross > 0.0
    ensures var v := net / gross; (v == 1.0 <==> net == gross) && (v > 0.0 <==> net > 0.0) && (v < 0.0 <==> net < 0.0)
  {
    var v := net / gross;
    assert v * gross == net;
    SignOfQuotient(v, gross, net);
  }

  // ---------------------------------------------------------------------------
  // The touch
  // ---------------------------------------------------------------------------

  /** The size at the best price went down and the price stayed. */
  predicate Eaten(before: Level, after: Level) {
    before.price == after.price && before.size.Some? && after.size.Some? && before.size.value > after.size.value
  }

  /** Touch depletion: 1 when only the asks were eaten into, -1 when only the bids were, 0 when neither or both alike. */
  lemma TouchDepletionMeans(sequence: seq<ValidOrderBook>)
    ensures Depletion(sequence).None? <==> |sequence| < 2
    ensures |sequence| >= 2 ==>
              var (v, p, c) := (Depletion(sequence).value, sequence[|sequence| - 2], sequence[|sequence| - 1]);
              var (bids, asks) := (Eaten(p.bids[0], c.bids[0]), Eaten(p.asks[0], c.asks[0]));
              && (v == 1.0 <==> asks && !bids) && (v == -1.0 <==> bids && !asks) && (!asks && !bids ==> v == 0.0)
              && (asks && bids ==>
                    var (b, a) := (BidSize(p) - BidSize(c), AskSize(p) - AskSize(c)); v * (a + b) == a - b)
  {
    if |sequence| >= 2 {
      var (p, c) := (sequence[|sequence| - 2], sequence[|sequence| - 1]);
      assert ValidLevel(p.bids[0]) && ValidLevel(c.bids[0]) && ValidLevel(p.asks[0]) && ValidLevel(c.asks[0]);
      var bid := Used(Bid(p), Bid(c), BidSize(p), BidSize(c));
      var ask := Used(Ask(p), Ask(c), AskSize(p), AskSize(c));
      assert bid > 0.0 <==> Eaten(p.bids[0], c.bids[0]);
      assert ask > 0.0 <==> Eaten(p.asks[0], c.asks[0]);
      hide Used, Bid, Ask, ValidBook;
      RatioMeans(bid, ask);
    }
  }

  lemma RatioMeans(bid: real, ask: real)
    requires bid >= 0.0 && ask >= 0.0
    ensures var v := DepletionRatio(bid, ask);
            && (v == 1.0 <==> ask > 0.0 && bid == 0.0) && (v == -1.0 <==> bid > 0.0 && ask == 0.0)
            && (bid == 0.0 && ask == 0.0 ==> v == 0.0) && v * (ask + bid) == ask - bid
  {
    if bid + ask > 0.0 {
      var (n, v) := (bid + ask, (ask - bid) / (bid + ask));
      assert v * n == ask - bid;
      SignOfQuotient(v - 1.0, n, -2.0 * bid) by { assert (v - 1.0) * n == v * n - n; }
      SignOfQuotient(v + 1.0, n, 2.0 * ask) by { assert (v + 1.0) * n == v * n + n; }
    }
  }

  // ---------------------------------------------------------------------------
  // The window
  // ---------------------------------------------------------------------------

  lemma {:induction false} CountingHas(history: seq<Book>, current: ValidOrderBook, sessionOf: int -> string, open: int -> bool, sample: ValidOrderBook)
    ensures multiset(Counting(history, current, sessionOf, open))[sample] ==
            if Counts(sample, current, sessionOf, open) then multiset(history)[sample] else 0
  {
    hide Counts;
    if history != [] {
      var n := |history| - 1;
      CountingHas(history[..n], current, sessionOf, open, sample);
      assert history == history[..n] + [history[n]];
    }
  }

  /** What counts: valid earlier books of the same symbol, from open hours of the same session, and every one of them. */
  lemma CountingMeans(history: seq<Book>, current: ValidOrderBook, sessionOf: int -> string, open: int -> bool, sample: ValidOrderBook)
    ensures var time := sample.timestamp.value;
            sample in Counting(history, current, sessionOf, open) <==>
              sample in history && sample.symbol == current.symbol && time < current.timestamp.value && open(time)
              && sessionOf(time) == sessionOf(current.timestamp.value)
  {
    CountingHas(history, current, sessionOf, open, sample);
    assert sample in Counting(history, current, sessionOf, open) <==> sample in multiset(Counting(history, current, sessionOf, open));
    assert sample in history <==> sample in multiset(history);
  }

  /** A level without a positive price, or without a size that is at least zero. */
  predicate BadLevel(levels: seq<Level>, i: nat) {
    i < |levels| && match levels[i]
                    case Level(Some(price), Some(size)) => price <= 0.0 || size < 0.0
                    case _ => true
  }

  predicate PricedAbove(a: Level, b: Level) { a.price.Some? && b.price.Some? && a.price.value > b.price.value }

  /**
   Nothing at all is reported for exactly these books: without a symbol, not fresh, without readable times
   or with a depth beyond either side or below one; with a bad level; with a later level better than an
   earlier one; or crossed.
   */
  lemma NoReportIff(current: Book, history: seq<Book>, requested: Option<int>, sessionOf: int -> string, open: int -> bool)
    ensures ReportOf(current, history, requested, sessionOf, open).spreadAbs.None? ==>
              ReportOf(current, history, requested, sessionOf, open) == Report(None, None, None, None, None, None, None, None)
    ensures ReportOf(current, history, requested, sessionOf, open).spreadAbs.None? <==>
              || |current.symbol| == 0 || !current.isFresh || current.timestamp == None || current.receivedAt == None || current.depth == None
              || current.depth.value < 1 || |current.bids| < current.depth.value || |current.asks| < current.depth.value
              || (exists i: nat :: BadLevel(current.bids, i) || BadLevel(current.asks, i))
              || (exists i, j :: 0 <= i < j < |current.bids| && PricedAbove(current.bids[j], current.bids[i]))
              || (exists i, j :: 0 <= i < j < |current.asks| && PricedAbove(current.asks[i], current.asks[j]))
              || PricedAbove(current.bids[0], current.asks[0])
  {
    hide PercentileOf, MeanSign, PressureOf, Depletion, DepthOf, Imbalance, RecentSequence, SessionSamples, Spreads;
    forall i: nat | i < |current.bids| ensures BadLevel(current.bids, i) <==> !ValidLevel(current.bids[i]) { }
    forall i: nat | i < |current.asks| ensures BadLevel(current.asks, i) <==> !ValidLevel(current.asks[i]) { }
    SidesAreValid(current);
  }

  lemma SidesAreValid(book: Book)
    ensures ValidSide(book.bids) && ValidSide(book.asks) <==> !exists i: nat :: BadLevel(book.bids, i) || BadLevel(book.asks, i)
  {
    if !ValidSide(book.bids) { var i: nat :| i < |book.bids| && !ValidLevel(book.bids[i]); assert BadLevel(book.bids, i); }
    if !ValidSide(book.asks) { var i: nat :| i < |book.asks| && !ValidLevel(book.asks[i]); assert BadLevel(book.asks, i); }
  }

  /** The session's samples are its last 23,400 in time order: whatever counts and is left out is no later than what is kept. */
  lemma SessionSamplesMeans(history: seq<Book>, current: ValidOrderBook, sessionOf: int -> string, open: int -> bool, sample: ValidOrderBook)
    requires Counts(sample, current, sessionOf, open) && sample in history
    ensures var samples := SessionSamples(history, current, sessionOf, open);
            && |samples| == (if |Counting(history, current, sessionOf, open)| < 23_400 then |Counting(history, current, sessionOf, open)| else 23_400)
            && (sample in samples || forall kept :: kept in samples ==> TimeOf(sample) <= TimeOf(kept))
            && (|samples| < 23_400 ==> sample in samples)
  {
    hide Counts, Counting, ByTime, TimeOf;
    var counting := Counting(history, current, sessionOf, open);
    CountingHas(history, current, sessionOf, open, sample);
    ByTimeSorts(counting);
    var ordered := ByTime(counting);
    SameSizes(ordered, counting);
    assert sample in multiset(ordered);
    TailIsLatest(ordered, sample);
  }

  lemma SameSizes(a: seq<ValidOrderBook>, b: seq<ValidOrderBook>)
    requires multiset(a) == multiset(b)
    ensures |a| == |b|
  {
    assert |a| == |multiset(a)| && |b| == |multiset(b)|;
  }

  lemma TailIsLatest(ordered: seq<ValidOrderBook>, sample: ValidOrderBook)
    requires sample in ordered
    requires forall i, j :: 0 <= i < j < |ordered| ==> TimeOf(ordered[i]) <= TimeOf(ordered[j])
    ensures var kept := LastSamples(ordered);
            && |kept| == (if |ordered| < 23_400 then |ordered| else 23_400)
            && (sample in kept || forall other :: other in kept ==> TimeOf(sample) <= TimeOf(other))
            && (|kept| < 23_400 ==> sample in kept)
  {
    hide TimeOf;
    var kept := LastSamples(ordered);
    SuffixIsLatest(ordered, |ordered| - |kept|, sample);
  }

  lemma SuffixIsLatest(ordered: seq<ValidOrderBook>, cut: nat, sample: ValidOrderBook)
    requires sample in ordered && cut <= |ordered|
    requires forall i, j :: 0 <= i < j < |ordered| ==> TimeOf(ordered[i]) <= TimeOf(ordered[j])
    ensures sample in ordered[cut..] || (0 < cut && forall other :: other in ordered[cut..] ==> TimeOf(sample) <= TimeOf(other))
  {
    hide TimeOf;
    var k :| 0 <= k < |ordered| && ordered[k] == sample;
    var kept := ordered[cut..];
    if cut <= k {
      assert kept[k - cut] == sample;
    } else {
      forall other | other in kept ensures TimeOf(sample) <= TimeOf(other) {
        var j :| 0 <= j < |kept| && kept[j] == other;
        assert ordered[cut + j] == other;
      }
    }
  }

  lemma {:induction false} SinceHas(samples: seq<ValidOrderBook>, from: int, sample: ValidOrderBook)
    ensures sample in Since(samples, from) <==> sample in samples && TimeOf(sample) >= from
  {
    if samples != [] {
      var n := |samples| - 1;
      SinceHas(samples[..n], from, sample);
      assert samples == samples[..n] + [samples[n]];
    }
  }

  /** The pressure indicators look at the session's samples of the last sixty seconds, and at the book itself last. */
  lemma RecentSequenceMeans(history: seq<Book>, current: ValidOrderBook, sessionOf: int -> string, open: int -> bool, sample: ValidOrderBook)
    ensures var sequence := RecentSequence(history, current, sessionOf, open);
            && |sequence| > 0 && sequence[|sequence| - 1] == current
            && (sample in sequence[..|sequence| - 1] <==>
                  sample in SessionSamples(history, current, sessionOf, open) && sample.timestamp.value >= current.timestamp.value - 60_000)
  {
    hide SessionSamples;
    SinceHas(SessionSamples(history, current, sessionOf, open), TimeOf(current) - 60_000, sample);
  }
}
