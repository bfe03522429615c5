/** Building coarser candles out of finer ones. Times are milliseconds since the epoch; an unreadable time is None. */
module Candles {
  import opened Wrappers
  import CivilCalendar

  datatype Interval = M1 | M5 | M15 | M30 | H1 | H4 | D1 | W1

  datatype Candle = Candle(time: Option<int>, open: real, high: real, low: real, close: real, volume: real)

  function Rank(interval: Interval): nat {
    match interval
    case M1 => 0 case M5 => 1 case M15 => 2 case M30 => 3 case H1 => 4 case H4 => 5 case D1 => 6 case W1 => 7
  }

  function Millis(interval: Interval): (ms: int)
    ensures ms > 0
  {
    match interval
    case M1 => 60_000
    case M5 => 300_000
    case M15 => 900_000
    case M30 => 1_800_000
    case H1 => 3_600_000
    case H4 => 14_400_000
    case D1 => 86_400_000
    case W1 => 604_800_000
  }

  /** The epoch is a Thursday; weeks start on Monday, four days later. */
  const MONDAY_EPOCH_OFFSET := 345_600_000

  function BucketStart(time: int, interval: Interval): int {
    if interval.W1? then (time - MONDAY_EPOCH_OFFSET) / Millis(W1) * Millis(W1) + MONDAY_EPOCH_OFFSET
    else time / Millis(interval) * Millis(interval)
  }

  function Origin(interval: Interval): int { if interval.W1? then MONDAY_EPOCH_OFFSET else 0 }

  // ---------------------------------------------------------------------------
  // Buckets
  // ---------------------------------------------------------------------------

  lemma MulMono(a: int, b: int, d: int)
    requires a <= b && d > 0
    ensures a * d <= b * d
  {
  }

  lemma QuotientIs(x: int, d: int, n: int)
    requires d > 0 && n * d <= x < n * d + d
    ensures x / d == n
  {
    var q := x / d;
    assert q * d <= x < q * d + d;
    if q + 1 <= n { MulMono(q + 1, n, d); }
    if n + 1 <= q { MulMono(n + 1, q, d); }
  }

  lemma QuotientsAscend(x: int, y: int, d: int)
    requires d > 0 && x <= y
    ensures x / d <= y / d
  {
    var (p, q) := (x / d, y / d);
    assert p * d <= x && y < q * d + d;
    if q + 1 <= p { MulMono(q + 1, p, d); }
  }

  /** Rounding down to a multiple of d and then of r times d is rounding down to a multiple of r times d. */
  lemma NestedFloor(x: int, d: int, r: int, e: int)
    requires d > 0 && r > 0 && e == r * d
    ensures (x / d * d) / e == x / e
  {
    var (f, q) := (x / d, x / e);
    assert f * d <= x < f * d + d && q * e <= x < q * e + e;
    Reassociated(q, r, d);
    FloorStaysInside(x, f, q * r, d);
    QuotientIs(f * d, e, q);
  }

  lemma Reassociated(q: int, r: int, d: int)
    ensures q * (r * d) == (q * r) * d
  {
  }

  /** A multiple of d that does not pass x does not pass the last multiple of d up to x. */
  lemma FloorStaysInside(x: int, f: int, m: int, d: int)
    requires d > 0 && f * d <= x < f * d + d && m * d <= x
    ensures m * d <= f * d
  {
    if f + 1 <= m { MulMono(f + 1, m, d); } else { MulMono(m, f, d); }
  }

  /** A bucket is the half-open stretch of the interval's length that holds the time, on the interval's grid. */
  lemma BucketHoldsTime(time: int, interval: Interval)
    ensures BucketStart(time, interval) <= time < BucketStart(time, interval) + Millis(interval)
    ensures (BucketStart(time, interval) - Origin(interval)) % Millis(interval) == 0
  {
    var (x, d) := (time - Origin(interval), Millis(interval));
    var n := x / d;
    assert n * d <= x < n * d + d;
    assert BucketStart(time, interval) - Origin(interval) == n * d;
    QuotientIs(n * d, d, n);
  }

  /** Only one stretch of the grid holds the time. */
  lemma BucketIsUnique(time: int, interval: Interval, start: int)
    requires start <= time < start + Millis(interval) && (start - Origin(interval)) % Millis(interval) == 0
    ensures start == BucketStart(time, interval)
  {
    var d := Millis(interval);
    QuotientIs(time - Origin(interval), d, (start - Origin(interval)) / d);
  }

  /** What the names of the intervals say. */
  lemma IntervalLengths()
    ensures Millis(M1) == 60 * 1000 && Millis(M5) == 5 * Millis(M1) && Millis(M15) == 15 * Millis(M1) && Millis(M30) == 30 * Millis(M1)
    ensures Millis(H1) == 60 * Millis(M1) && Millis(H4) == 4 * Millis(H1) && Millis(D1) == 24 * Millis(H1) && Millis(W1) == 7 * Millis(D1)
  {
  }

  /** Minutes and hours count from midnight UTC, days begin there, and weeks begin there on a Monday. */
  lemma BucketsStartOnTheClock(time: int, interval: Interval)
    ensures !interval.W1? ==>
              var day := BucketStart(time, D1);
              day % (24 * 60 * 60 * 1000) == 0 && day <= BucketStart(time, interval) && (BucketStart(time, interval) - day) % Millis(interval) == 0
    ensures interval.W1? ==>
              var day := BucketStart(time, W1) / (24 * 60 * 60 * 1000);
              BucketStart(time, W1) % (24 * 60 * 60 * 1000) == 0 && CivilCalendar.Weekday(day) == 1
  {
    hide BucketStart, Millis, CivilCalendar.Weekday;
    IntervalLengths();
    BucketHoldsTime(time, D1);
    BucketHoldsTime(time, interval);
    if interval.W1? {
      MondayWeeks(BucketStart(time, W1));
    } else {
      DayParts(time, interval);
    }
  }

  lemma MondayWeeks(start: int)
    requires (start - MONDAY_EPOCH_OFFSET) % (7 * 86_400_000) == 0
    ensures start % 86_400_000 == 0 && CivilCalendar.Weekday(start / 86_400_000) == 1
  {
    var week := (start - MONDAY_EPOCH_OFFSET) / (7 * 86_400_000);
    assert start == (7 * week + 4) * 86_400_000;
    QuotientIs(start, 86_400_000, 7 * week + 4);
    CivilCalendar.WeeksLater(4, week);
  }

  /** A day is a whole number of every shorter interval. */
  lemma DayParts(time: int, interval: Interval)
    requires !interval.W1?
    ensures BucketStart(time, D1) <= BucketStart(time, interval) && (BucketStart(time, interval) - BucketStart(time, D1)) % Millis(interval) == 0
  {
    hide BucketStart, Millis, CivilCalendar.Weekday;
    CoarseAfterFine(time, interval, D1);
    BucketHoldsTime(time, interval);
    BucketHoldsTime(BucketStart(time, interval), D1);
    DayIsDay();
    GridOfDay(BucketStart(time, D1), BucketStart(time, interval), interval);
  }

  lemma DayIsDay()
    ensures Millis(D1) == 86_400_000 && Origin(D1) == 0
  {
  }

  lemma GridOfDay(day: int, start: int, interval: Interval)
    requires !interval.W1? && day % 86_400_000 == 0 && start % Millis(interval) == 0
    ensures (start - day) % Millis(interval) == 0
  {
    var d := Millis(interval);
    var parts := match interval case M1 => 1440 case M5 => 288 case M15 => 96 case M30 => 48 case H1 => 24 case H4 => 6 case D1 => 1;
    assert parts * d == 86_400_000;
    hide Millis;
    MultiplesApart(day / 86_400_000, start / d, parts, d);
  }

  lemma MultiplesApart(days: int, n: int, parts: int, d: int)
    requires d > 0
    ensures (n * d - days * (parts * d)) % d == 0
  {
    assert n * d - days * (parts * d) == (n - days * parts) * d;
    QuotientIs((n - days * parts) * d, d, n - days * parts);
  }

  lemma BucketsAscend(a: int, b: int, interval: Interval)
    requires a <= b
    ensures BucketStart(a, interval) <= BucketStart(b, interval)
  {
    var (d, o) := (Millis(interval), Origin(interval));
    QuotientsAscend(a - o, b - o, d);
    MulMono((a - o) / d, (b - o) / d, d);
  }

  function Finer(interval: Interval): Interval
    requires !interval.M1?
  {
    match interval
    case M5 => M1 case M15 => M5 case M30 => M15 case H1 => M30 case H4 => H1 case D1 => H4 case W1 => D1
  }

  lemma OneStep(time: int, coarse: Interval)
    requires !coarse.M1?
    ensures BucketStart(BucketStart(time, Finer(coarse)), coarse) == BucketStart(time, coarse)
  {
    match coarse
    case M5 => NestedFloor(time, 60_000, 5, 300_000);
    case M15 => NestedFloor(time, 300_000, 3, 900_000);
    case M30 => NestedFloor(time, 900_000, 2, 1_800_000);
    case H1 => NestedFloor(time, 1_800_000, 2, 3_600_000);
    case H4 => NestedFloor(time, 3_600_000, 4, 14_400_000);
    case D1 => NestedFloor(time, 14_400_000, 6, 86_400_000);
    case W1 =>
      NestedFloor(time - MONDAY_EPOCH_OFFSET, 86_400_000, 7, 604_800_000);
      FourDays(time);
  }

  lemma FourDays(time: int)
    ensures (time - MONDAY_EPOCH_OFFSET) / 86_400_000 == time / 86_400_000 - 4
  {
    QuotientIs(time - MONDAY_EPOCH_OFFSET, 86_400_000, time / 86_400_000 - 4);
  }

  /** Rounding to a finer bucket first does not change the coarser bucket, Monday weeks and times before 1970 included. */
  lemma {:induction false} CoarseAfterFine(time: int, fine: Interval, coarse: Interval)
    requires Rank(fine) <= Rank(coarse)
    ensures BucketStart(BucketStart(time, fine), coarse) == BucketStart(time, coarse)
    decreases Rank(coarse)
  {
    hide BucketStart;
    if fine == coarse {
      SameBucketTwice(time, coarse);
    } else {
      OneStep(BucketStart(time, fine), coarse);
      OneStep(time, coarse);
      CoarseAfterFine(time, fine, Finer(coarse));
    }
  }

  lemma SameBucketTwice(time: int, interval: Interval)
    ensures BucketStart(BucketStart(time, interval), interval) == BucketStart(time, interval)
  {
    hide BucketStart;
    BucketHoldsTime(time, interval);
    BucketIsUnique(BucketStart(time, interval), interval, BucketStart(time, interval));
  }

  // ---------------------------------------------------------------------------
  // Aggregation
  // ---------------------------------------------------------------------------

  function Max(a: real, b: real): real { if a > b then a else b }

  function Min(a: real, b: real): real { if a < b then a else b }

  /** A bucket's candle begins as a copy of its first source candle. */
  function Opened(c: Candle, interval: Interval): Candle
    requires c.time.Some?
  {
    c.(time := Some(BucketStart(c.time.value, interval)))
  }

  function Merged(current: Candle, c: Candle): Candle {
    Candle(current.time, current.open, Max(current.high, c.high), Min(current.low, c.low), c.close, current.volume + c.volume)
  }

  /** The candles so far, with one more source candle; one whose time cannot be read is skipped. */
  function Add(result: seq<Candle>, c: Candle, interval: Interval): seq<Candle> {
    if c.time.None? then result
    else if result != [] && result[|result| - 1].time == Opened(c, interval).time
    then result[..|result| - 1] + [Merged(result[|result| - 1], c)]
    else result + [Opened(c, interval)]
  }

  function Aggregate(source: seq<Candle>, interval: Interval): seq<Candle> {
    if source == [] then [] else Add(Aggregate(source[..|source| - 1], interval), source[|source| - 1], interval)
  }

  method AggregateCandles(source: seq<Candle>, interval: Interval) returns (result: seq<Candle>)
    ensures result == Aggregate(source, interval)
  {
    hide BucketStart;
    result := [];
    var bucketStart := 0;
    var current: Option<Candle> := None;
    for i := 0 to |source|
      invariant result + (if current.Some? then [current.value] else []) == Aggregate(source[..i], interval)
      invariant current.None? ==> result == []
      invariant current.Some? ==> current.value.time == Some(bucketStart)
    {
      var c := source[i];
      ghost var before := Aggregate(source[..i], interval);
      assert source[..i + 1][..i] == source[..i];
      assert Aggregate(source[..i + 1], interval) == Add(before, c, interval);
      if c.time.None? { continue; }
      var start := BucketStart(c.time.value, interval);
      if current.None? || start != bucketStart {
        if current.Some? { result := result + [current.value]; }
        bucketStart := start;
        current := Some(Candle(Some(start), c.open, c.high, c.low, c.close, c.volume));
      } else {
        assert before[..|before| - 1] == result;
        var bar := current.value;
        current := Some(Candle(bar.time, bar.open, Max(bar.high, c.high), Min(bar.low, c.low), c.close, bar.volume + c.volume));
      }
    }
    assert source[..|source|] == source;
    if current.Some? { result := result + [current.value]; }
  }

  // ---------------------------------------------------------------------------
  // Coarser from finer
  // ---------------------------------------------------------------------------

  lemma MergeTwice(a: Candle, b: Candle, c: Candle)
    ensures Merged(Merged(a, b), c) == Merged(a, Merged(b, c))
  {
  }

  lemma {:induction false} AggregateTimes(source: seq<Candle>, interval: Interval)
    ensures forall i :: 0 <= i < |Aggregate(source, interval)| ==> Aggregate(source, interval)[i].time.Some?
  {
    if source != [] { AggregateTimes(source[..|source| - 1], interval); }
  }

  /** Adding a source candle that belongs to the last fine candle adds it to the coarse candle that one went into. */
  lemma ExtendLast(front: seq<Candle>, last: Candle, c: Candle, coarse: Interval)
    requires last.time.Some? && c.time.Some? && Opened(last, coarse).time == Opened(c, coarse).time
    ensures Aggregate(front + [Merged(last, c)], coarse) == Add(Aggregate(front + [last], coarse), c, coarse)
  {
    hide BucketStart;
    var g := Aggregate(front, coarse);
    assert (front + [last])[..|front|] == front && (front + [Merged(last, c)])[..|front|] == front;
    var before := Add(g, last, coarse);
    assert Aggregate(front + [last], coarse) == before;
    assert before[|before| - 1].time == Opened(c, coarse).time;
    if g != [] && g[|g| - 1].time == Opened(last, coarse).time {
      MergeTwice(g[|g| - 1], last, c);
      assert before[..|before| - 1] == g[..|g| - 1];
    } else {
      assert before[..|before| - 1] == g;
    }
  }

  /** Aggregating in two stages gives the candles of aggregating once, whatever the order of the source. */
  lemma {:induction false} TwoStagesAreOne(source: seq<Candle>, fine: Interval, coarse: Interval)
    requires Rank(fine) <= Rank(coarse)
    ensures Aggregate(Aggregate(source, fine), coarse) == Aggregate(source, coarse)
  {
    hide BucketStart, Merged, Opened;
    if source != [] {
      var (rest, c) := (source[..|source| - 1], source[|source| - 1]);
      TwoStagesAreOne(rest, fine, coarse);
      if c.time.Some? { AddFine(Aggregate(rest, fine), c, fine, coarse, rest); }
    }
  }

  lemma AddFine(f: seq<Candle>, c: Candle, fine: Interval, coarse: Interval, rest: seq<Candle>)
    requires Rank(fine) <= Rank(coarse) && c.time.Some? && f == Aggregate(rest, fine)
    ensures Aggregate(Add(f, c, fine), coarse) == Add(Aggregate(f, coarse), c, coarse)
  {
    hide BucketStart, Merged, Aggregate;
    CoarseAfterFine(c.time.value, fine, coarse);
    if f != [] && f[|f| - 1].time == Opened(c, fine).time {
      AddToLast(f, c, fine, coarse);
    } else {
      AddBehind(f, c, fine, coarse);
    }
  }

  lemma AddToLast(f: seq<Candle>, c: Candle, fine: Interval, coarse: Interval)
    requires c.time.Some? && f != [] && f[|f| - 1].time == Opened(c, fine).time
    requires BucketStart(BucketStart(c.time.value, fine), coarse) == BucketStart(c.time.value, coarse)
    ensures Aggregate(Add(f, c, fine), coarse) == Add(Aggregate(f, coarse), c, coarse)
  {
    hide BucketStart, Merged, Aggregate;
    var n := |f| - 1;
    assert f == f[..n] + [f[n]];
    ExtendLast(f[..n], f[n], c, coarse);
  }

  lemma AddBehind(f: seq<Candle>, c: Candle, fine: Interval, coarse: Interval)
    requires c.time.Some? && (f == [] || f[|f| - 1].time != Opened(c, fine).time)
    requires BucketStart(BucketStart(c.time.value, fine), coarse) == BucketStart(c.time.value, coarse)
    ensures Aggregate(Add(f, c, fine), coarse) == Add(Aggregate(f, coarse), c, coarse)
  {
    hide BucketStart, Merged;
    var bar := Opened(c, fine);
    assert (f + [bar])[..|f|] == f;
    assert Opened(bar, coarse) == Opened(c, coarse);
    AddSameBucket(Aggregate(f, coarse), bar, c, coarse);
  }

  lemma AddSameBucket(result: seq<Candle>, a: Candle, b: Candle, interval: Interval)
    requires a.time.Some? && b.time.Some? && a == b.(time := a.time) && Opened(a, interval) == Opened(b, interval)
    ensures Add(result, a, interval) == Add(result, b, interval)
  {
  }

  // ---------------------------------------------------------------------------
  // Volume and groups
  // ---------------------------------------------------------------------------

  function Volume(candles: seq<Candle>): real {
    if candles == [] then 0.0
    else Volume(candles[..|candles| - 1]) + if candles[|candles| - 1].time.Some? then candles[|candles| - 1].volume else 0.0
  }

  /** The volume of all readable source candles is the volume of the result. */
  lemma {:induction false} VolumeIsKept(source: seq<Candle>, interval: Interval)
    ensures Volume(Aggregate(source, interval)) == Volume(source)
  {
    hide BucketStart;
    if source != [] {
      var (rest, c) := (source[..|source| - 1], source[|source| - 1]);
      VolumeIsKept(rest, interval);
      var g := Aggregate(rest, interval);
      AggregateTimes(rest, interval);
      if c.time.Some? {
        if g != [] && g[|g| - 1].time == Opened(c, interval).time {
          assert (g[..|g| - 1] + [Merged(g[|g| - 1], c)])[..|g| - 1] == g[..|g| - 1];
        } else {
          assert (g + [Opened(c, interval)])[..|g|] == g;
        }
      }
    }
  }

  /** The source candles of one bucket, in their order. */
  function InBucket(source: seq<Candle>, start: int, interval: Interval): seq<Candle> {
    if source == [] then []
    else
      var c := source[|source| - 1];
      var before := InBucket(source[..|source| - 1], start, interval);
      if c.time.Some? && BucketStart(c.time.value, interval) == start then before + [c] else before
  }

  function Highest(group: seq<Candle>): real
    requires group != []
  {
    if |group| == 1 then group[0].high else Max(Highest(group[..|group| - 1]), group[|group| - 1].high)
  }

  function Lowest(group: seq<Candle>): real
    requires group != []
  {
    if |group| == 1 then group[0].low else Min(Lowest(group[..|group| - 1]), group[|group| - 1].low)
  }

  function Traded(group: seq<Candle>): real {
    if group == [] then 0.0 else Traded(group[..|group| - 1]) + group[|group| - 1].volume
  }

  /** One candle for a whole group: first open, extremes, last close, total volume. */
  function Summary(group: seq<Candle>, start: int): Candle
    requires group != []
  {
    Candle(Some(start), group[0].open, Highest(group), Lowest(group), group[|group| - 1].close, Traded(group))
  }

  lemma {:induction false} ExtremesAreExtreme(group: seq<Candle>)
    requires group != []
    ensures forall i :: 0 <= i < |group| ==> Lowest(group) <= group[i].low && group[i].high <= Highest(group)
    ensures exists i :: 0 <= i < |group| && group[i].high == Highest(group)
    ensures exists i :: 0 <= i < |group| && group[i].low == Lowest(group)
  {
    if |group| == 1 {
      assert group[0].high == Highest(group) && group[0].low == Lowest(group);
    } else {
      var n := |group| - 1;
      ExtremesAreExtreme(group[..n]);
      var h :| 0 <= h < n && group[..n][h].high == Highest(group[..n]);
      var l :| 0 <= l < n && group[..n][l].low == Lowest(group[..n]);
      assert group[if Highest(group[..n]) > group[n].high then h else n].high == Highest(group);
      assert group[if Lowest(group[..n]) < group[n].low then l else n].low == Lowest(group);
    }
  }

  predicate InTimeOrder(source: seq<Candle>) {
    forall i, j :: 0 <= i < j < |source| && source[i].time.Some? && source[j].time.Some? ==> source[i].time.value <= source[j].time.value
  }

  /** The result is the list of summaries of the non-empty buckets, in ascending order. */
  ghost predicate GroupsByBucket(source: seq<Candle>, interval: Interval, result: seq<Candle>) {
    && (forall i :: 0 <= i < |result| ==> IsGroup(source, interval, result[i]))
    && (forall i, j :: 0 <= i < j < |result| ==> Before(result[i], result[j]))
    && (forall k :: 0 <= k < |source| && source[k].time.Some? ==> HasBucket(result, BucketStart(source[k].time.value, interval)))
  }

  predicate Before(a: Candle, b: Candle) { a.time.Some? && b.time.Some? && a.time.value < b.time.value }

  ghost predicate HasBucket(result: seq<Candle>, start: int) {
    exists i :: 0 <= i < |result| && result[i].time == Some(start)
  }

  ghost predicate IsGroup(source: seq<Candle>, interval: Interval, c: Candle) {
    && c.time.Some? && InBucket(source, c.time.value, interval) != []
    && c == Summary(InBucket(source, c.time.value, interval), c.time.value)
  }

  lemma {:induction false} GroupHasMember(source: seq<Candle>, start: int, interval: Interval) returns (k: nat)
    requires InBucket(source, start, interval) != []
    ensures k < |source| && source[k].time.Some? && BucketStart(source[k].time.value, interval) == start
  {
    hide BucketStart;
    var n := |source| - 1;
    if source[n].time.Some? && BucketStart(source[n].time.value, interval) == start {
      k := n;
    } else {
      k := GroupHasMember(source[..n], start, interval);
    }
  }

  lemma SummaryGrows(group: seq<Candle>, c: Candle, start: int)
    requires group != []
    ensures Summary(group + [c], start) == Merged(Summary(group, start), c)
  {
    assert (group + [c])[..|group|] == group;
  }

  lemma SummaryOfOne(c: Candle, interval: Interval)
    requires c.time.Some?
    ensures Summary([c], BucketStart(c.time.value, interval)) == Opened(c, interval)
  {
    hide BucketStart;
    assert Traded([c]) == Traded([c][..0]) + c.volume;
    assert [c][..0] == [];
    assert Highest([c]) == c.high && Lowest([c]) == c.low;
  }

  /** No bucket so far is later than the newest candle's. */
  lemma EarlierBuckets(rest: seq<Candle>, c: Candle, interval: Interval, bar: Candle)
    requires InTimeOrder(rest + [c]) && c.time.Some? && IsGroup(rest, interval, bar)
    ensures bar.time.value <= BucketStart(c.time.value, interval)
  {
    hide BucketStart, Summary;
    var k := GroupHasMember(rest, bar.time.value, interval);
    assert (rest + [c])[k] == rest[k] && (rest + [c])[|rest|] == c;
    BucketsAscend(rest[k].time.value, c.time.value, interval);
  }

  lemma BucketOfLonger(rest: seq<Candle>, c: Candle, start: int, interval: Interval)
    ensures InBucket(rest + [c], start, interval) ==
            InBucket(rest, start, interval) + if c.time.Some? && BucketStart(c.time.value, interval) == start then [c] else []
  {
    hide BucketStart;
    assert (rest + [c])[..|rest|] == rest;
  }

  lemma OtherGroupsStay(rest: seq<Candle>, c: Candle, interval: Interval, bar: Candle)
    requires IsGroup(rest, interval, bar)
    requires c.time.None? || BucketStart(c.time.value, interval) != bar.time.value
    ensures IsGroup(rest + [c], interval, bar)
  {
    hide BucketStart, Summary, InBucket;
    BucketOfLonger(rest, c, bar.time.value, interval);
    var group := InBucket(rest, bar.time.value, interval);
    assert group + [] == group;
  }

  lemma LastGroupGrows(rest: seq<Candle>, c: Candle, interval: Interval, bar: Candle)
    requires IsGroup(rest, interval, bar) && c.time.Some? && BucketStart(c.time.value, interval) == bar.time.value
    ensures IsGroup(rest + [c], interval, Merged(bar, c))
  {
    hide BucketStart, Summary, Merged, InBucket;
    BucketOfLonger(rest, c, bar.time.value, interval);
    SummaryGrows(InBucket(rest, bar.time.value, interval), c, bar.time.value);
    MergedTime(bar, c);
  }

  lemma MergedTime(bar: Candle, c: Candle)
    ensures Merged(bar, c).time == bar.time
  {
  }

  lemma NewGroup(rest: seq<Candle>, c: Candle, interval: Interval)
    requires c.time.Some? && InBucket(rest, BucketStart(c.time.value, interval), interval) == []
    ensures IsGroup(rest + [c], interval, Opened(c, interval))
  {
    hide BucketStart, Summary, InBucket;
    BucketOfLonger(rest, c, BucketStart(c.time.value, interval), interval);
    assert [] + [c] == [c];
    SummaryOfOne(c, interval);
  }

  lemma AddGroups(rest: seq<Candle>, c: Candle, interval: Interval, g: seq<Candle>)
    requires InTimeOrder(rest + [c]) && GroupsByBucket(rest, interval, g)
    ensures GroupsByBucket(rest + [c], interval, Add(g, c, interval))
  {
    hide GroupsByBucket, InTimeOrder, BucketStart, Merged;
    if c.time.None? { AddUnread(rest, c, interval, g); } else { AddRead(rest, c, interval, g); }
  }

  /** A candle without a readable time belongs to no bucket. */
  lemma AddUnread(rest: seq<Candle>, c: Candle, interval: Interval, g: seq<Candle>)
    requires c.time.None? && GroupsByBucket(rest, interval, g)
    ensures GroupsByBucket(rest + [c], interval, g)
  {
    hide BucketStart, IsGroup;
    var source := rest + [c];
    forall i | 0 <= i < |g| ensures IsGroup(source, interval, g[i]) { GroupTime(rest, interval, g[i]); OtherGroupsStay(rest, c, interval, g[i]); }
    forall k | 0 <= k < |source| && source[k].time.Some?
      ensures HasBucket(g, BucketStart(source[k].time.value, interval))
    {
      assert k < |rest| && source[k] == rest[k];
    }
  }

  lemma AddRead(rest: seq<Candle>, c: Candle, interval: Interval, g: seq<Candle>)
    requires InTimeOrder(rest + [c]) && c.time.Some? && GroupsByBucket(rest, interval, g)
    ensures GroupsByBucket(rest + [c], interval, Add(g, c, interval))
  {
    hide BucketStart, IsGroup, InTimeOrder, Merged, Add;
    var (source, result, start) := (rest + [c], Add(g, c, interval), BucketStart(c.time.value, interval));
    forall i | 0 <= i < |g| ensures g[i].time.Some? && g[i].time.value <= start {
      GroupTime(rest, interval, g[i]);
      EarlierBuckets(rest, c, interval, g[i]);
    }
    AddedGroups(rest, c, interval, g, result);
    forall k | 0 <= k < |source| && source[k].time.Some?
      ensures HasBucket(result, BucketStart(source[k].time.value, interval))
    {
      AddedBucket(rest, c, interval, g, k);
    }
  }

  lemma GroupTime(source: seq<Candle>, interval: Interval, bar: Candle)
    requires IsGroup(source, interval, bar)
    ensures bar.time.Some?
  {
  }

  lemma AddedGroups(rest: seq<Candle>, c: Candle, interval: Interval, g: seq<Candle>, result: seq<Candle>)
    requires c.time.Some? && GroupsByBucket(rest, interval, g) && result == Add(g, c, interval)
    requires forall i :: 0 <= i < |g| ==> g[i].time.Some? && g[i].time.value <= BucketStart(c.time.value, interval)
    ensures forall i :: 0 <= i < |result| ==> IsGroup(rest + [c], interval, result[i])
    ensures forall i, j :: 0 <= i < j < |result| ==> Before(result[i], result[j])
  {
    hide BucketStart, IsGroup, Merged;
    var start := BucketStart(c.time.value, interval);
    var n := |g| - 1;
    if g != [] && g[n].time == Some(start) {
      MergedTime(g[n], c);
      LastGroupGrows(rest, c, interval, g[n]);
      forall i | 0 <= i < n ensures IsGroup(rest + [c], interval, g[i]) { OtherGroupsStay(rest, c, interval, g[i]); }
    } else {
      forall i | 0 <= i < |g| ensures g[i].time.value < start && IsGroup(rest + [c], interval, g[i]) {
        assert i < n ==> g[i].time.value < g[n].time.value;
        OtherGroupsStay(rest, c, interval, g[i]);
      }
      if InBucket(rest, start, interval) != [] {
        var k := GroupHasMember(rest, start, interval);
      }
      NewGroup(rest, c, interval);
    }
  }

  lemma AddedBucket(rest: seq<Candle>, c: Candle, interval: Interval, g: seq<Candle>, k: nat)
    requires c.time.Some? && GroupsByBucket(rest, interval, g)
    requires k < |rest + [c]| && (rest + [c])[k].time.Some?
    ensures HasBucket(Add(g, c, interval), BucketStart((rest + [c])[k].time.value, interval))
  {
    hide BucketStart, IsGroup, Merged;
    var result := Add(g, c, interval);
    var n := |g| - 1;
    if g != [] { MergedTime(g[n], c); }
    if k < |rest| {
      var i :| 0 <= i < |g| && g[i].time == Some(BucketStart(rest[k].time.value, interval));
      assert result[i].time == g[i].time;
    } else {
      assert result[|result| - 1].time == Opened(c, interval).time;
    }
  }

  /** Source candles in time order come out grouped by bucket: one summary for each non-empty bucket, ascending. */
  lemma {:induction false} AggregateGroups(source: seq<Candle>, interval: Interval)
    requires InTimeOrder(source)
    ensures GroupsByBucket(source, interval, Aggregate(source, interval))
  {
    hide GroupsByBucket, Add;
    if source == [] {
      NoGroups(interval);
    } else {
      var n := |source| - 1;
      assert source == source[..n] + [source[n]];
      AggregateGroups(source[..n], interval);
      AddGroups(source[..n], source[n], interval, Aggregate(source[..n], interval));
    }
  }

  lemma NoGroups(interval: Interval)
    ensures GroupsByBucket([], interval, [])
  {
  }
}
