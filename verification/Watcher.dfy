/**
 The crossing test of a chart line and the watcher that runs it over a stream of quotes which
 may fail, go stale, or follow a restart that lost every observed price.
 */
module Watcher {
  import opened Wrappers

  type Time = int

  datatype Key = Key(user: string, underlying: string)

  /** The fields of a chart line the crossing test reads. */
  datatype Line = Line(id: nat, armPrice: real, triggerPrice: real, updatedAt: Time)

  datatype Observation = Observation(price: real, at: Time)

  /** A quote: last is absent when not finite, quotedAt when the timestamp cannot be parsed. */
  datatype Quote = QuoteFailed | Quote(last: Option<real>, quotedAt: Option<Time>)

  /** What a tick makes of a quote. */
  datatype Reading = Nothing | Stale | Fresh(price: real)

  // ---------------------------------------------------------------------------
  // The crossing test
  // ---------------------------------------------------------------------------

  datatype ArmedSide = Above | Below

  function ArmedSideOf(line: Line): ArmedSide {
    if line.armPrice >= line.triggerPrice then Above else Below
  }

  predicate Crossed(line: Line, previous: real, current: real) {
    match ArmedSideOf(line)
    case Above => previous >= line.triggerPrice && current <= line.triggerPrice
    case Below => previous <= line.triggerPrice && current >= line.triggerPrice
  }

  /** The price is on the trigger or past it, seen from the side the line was armed on. */
  predicate AtOrBeyond(line: Line, price: real) {
    match ArmedSideOf(line)
    case Above => price <= line.triggerPrice
    case Below => price >= line.triggerPrice
  }

  // ---------------------------------------------------------------------------
  // One tick
  // ---------------------------------------------------------------------------

  function Read(quote: Quote, now: Time, staleMs: int): Reading {
    if quote.QuoteFailed? || quote.last.None? || quote.last.value <= 0.0 then Nothing
    else
      var quotedAt := if quote.quotedAt.Some? then quote.quotedAt.value else now;
      if now - quotedAt > staleMs then Stale else Fresh(quote.last.value)
  }

  function NextObservation(previous: Option<Observation>, reading: Reading, now: Time): Option<Observation> {
    match reading
    case Nothing => previous
    case Stale => None
    case Fresh(price) => Some(Observation(price, now))
  }

  /** The more recent of the price last observed and the price the line was armed at. */
  function StartPrice(previous: Option<Observation>, line: Line): real {
    if previous.None? || line.updatedAt >= previous.value.at then line.armPrice else previous.value.price
  }

  predicate Fires(previous: Option<Observation>, line: Line, reading: Reading) {
    reading.Fresh? && Crossed(line, StartPrice(previous, line), reading.price)
  }

  function Lookup(observations: map<Key, Observation>, key: Key): Option<Observation> {
    if key in observations then Some(observations[key]) else None
  }

  /** The lines of a group a reading fires, in order. */
  function FiredLines(previous: Option<Observation>, lines: seq<Line>, reading: Reading): seq<Line> {
    if lines == [] then []
    else
      var before := FiredLines(previous, lines[..|lines| - 1], reading);
      if Fires(previous, lines[|lines| - 1], reading) then before + [lines[|lines| - 1]] else before
  }

  class ChartOrderWatcher {
    const staleMs: int
    var observations: map<Key, Observation>

    constructor (staleMs: int)
      ensures this.staleMs == staleMs && observations == map[]
    {
      this.staleMs := staleMs;
      observations := map[];
    }

    /** Quotes the group's underlying once and returns the lines handed to fire, in the group's order. */
    method CheckGroup(key: Key, group: seq<Line>, quote: Quote, now: Time) returns (fired: seq<Line>)
      modifies this
      ensures var reading := Read(quote, now, staleMs);
              var previous := Lookup(old(observations), key);
              && fired == FiredLines(previous, group, reading)
              && Lookup(observations, key) == NextObservation(previous, reading, now)
              && forall other :: other != key ==> Lookup(observations, other) == Lookup(old(observations), other)
    {
      fired := [];
      ghost var reading := Read(quote, now, staleMs);
      if quote.QuoteFailed? {
        NothingFires(Lookup(observations, key), group, reading);
        return;
      }
      if quote.last.None? || quote.last.value <= 0.0 {
        NothingFires(Lookup(observations, key), group, reading);
        return;
      }
      var last := quote.last.value;
      var quotedAt := if quote.quotedAt.Some? then quote.quotedAt.value else now;
      if now - quotedAt > staleMs {
        NothingFires(Lookup(observations, key), group, reading);
        observations := observations - {key};
        return;
      }
      var previous := Lookup(observations, key);
      observations := observations[key := Observation(last, now)];
      for i := 0 to |group|
        invariant fired == FiredLines(previous, group[..i], reading)
      {
        assert group[..i + 1][..i] == group[..i];
        var row := group[i];
        var armedAfterObservation := previous.None? || row.updatedAt >= previous.value.at;
        var from := if armedAfterObservation then row.armPrice else previous.value.price;
        if Crossed(row, from, last) {
          fired := fired + [row];
        }
      }
      assert group[..|group|] == group;
    }
  }

  lemma NothingFires(previous: Option<Observation>, lines: seq<Line>, reading: Reading)
    requires !reading.Fresh?
    ensures FiredLines(previous, lines, reading) == []
  {
    if lines != [] { NothingFires(previous, lines[..|lines| - 1], reading); }
  }

  /** A quote is usable when it has a positive price, and fresh when that price is not older than the limit; undated counts as fresh. */
  lemma ReadMeans(quote: Quote, now: Time, staleMs: int, price: real)
    ensures Read(quote, now, staleMs) == Fresh(price) <==>
            quote.Quote? && quote.last == Some(price) && price > 0.0 &&
            (if quote.quotedAt.Some? then quote.quotedAt.value >= now - staleMs else 0 <= staleMs)
    ensures Read(quote, now, staleMs) == Stale <==>
            quote.Quote? && quote.last.Some? && quote.last.value > 0.0 &&
            (if quote.quotedAt.Some? then quote.quotedAt.value < now - staleMs else staleMs < 0)
  {
  }

  /** An unusable quote leaves the price observed before, a stale one forgets it, a fresh one replaces it. */
  lemma QuoteLeaves(quote: Quote, now: Time, staleMs: int, previous: Option<Observation>)
    ensures var standing := NextObservation(previous, Read(quote, now, staleMs), now);
            && (quote.QuoteFailed? || quote.last.None? || quote.last.value <= 0.0 ==> standing == previous)
            && (quote.Quote? && quote.last.Some? && quote.last.value > 0.0 ==>
                  if (if quote.quotedAt.Some? then quote.quotedAt.value + staleMs < now else staleMs < 0) then standing.None?
                  else standing == Some(Observation(quote.last.value, now)))
  {
  }

  /** The trigger itself counts on both ends, and a line armed exactly on it waits above. */
  lemma CrossedMeans(line: Line, previous: real, current: real)
    ensures line.armPrice > line.triggerPrice ==> (Crossed(line, previous, current) <==> current <= line.triggerPrice <= previous)
    ensures line.armPrice < line.triggerPrice ==> (Crossed(line, previous, current) <==> previous <= line.triggerPrice <= current)
    ensures line.armPrice == line.triggerPrice ==> (Crossed(line, previous, current) <==> current <= line.triggerPrice <= previous)
  {
  }

  /** A group fires its lines one by one: each by itself, in the group's order, and no other. */
  lemma {:induction false} GroupFiresEach(previous: Option<Observation>, front: seq<Line>, back: seq<Line>, reading: Reading, line: Line)
    ensures FiredLines(previous, front + back, reading) == FiredLines(previous, front, reading) + FiredLines(previous, back, reading)
    ensures FiredLines(previous, [line], reading) ==
            if reading.Fresh? && Crossed(line, StartPrice(previous, line), reading.price) then [line] else []
  {
    assert [line][..0] == [];
    if back == [] {
      assert front + back == front;
    } else {
      var n := |back| - 1;
      GroupFiresEach(previous, front, back[..n], reading, line);
      assert (front + back)[..|front + back| - 1] == front + back[..n];
    }
  }

  /** The crossing starts from the later of the price observed and the arming of the line. */
  lemma StartPriceMeans(observed: Observation, line: Line)
    ensures StartPrice(None, line) == line.armPrice
    ensures observed.at <= line.updatedAt ==> StartPrice(Some(observed), line) == line.armPrice
    ensures observed.at > line.updatedAt ==> StartPrice(Some(observed), line) == observed.price
  {
  }

  /** What is written under a key is read under it and no other. */
  lemma LookupMeans(observations: map<Key, Observation>, key: Key, other: Key, observation: Observation)
    ensures Lookup(observations[key := observation], key) == Some(observation) && Lookup(observations - {key}, key) == None
    ensures other != key ==> Lookup(observations[key := observation], other) == Lookup(observations, other) == Lookup(observations - {key}, other)
  {
  }

  // ---------------------------------------------------------------------------
  // A line's history
  // ---------------------------------------------------------------------------

  /** One tick as a line sees it: what was read, whether every observation had just been lost, and the row's updatedAt. */
  datatype Tick = Tick(now: Time, reading: Reading, lost: bool, updatedAt: Time)

  function Kept(previous: Option<Observation>, lost: bool): Option<Observation> {
    if lost then None else previous
  }

  /** The observation standing after the given ticks. */
  function Observed(start: Option<Observation>, ticks: seq<Tick>): Option<Observation> {
    if ticks == [] then start
    else
      var tick := ticks[|ticks| - 1];
      NextObservation(Kept(Observed(start, ticks[..|ticks| - 1]), tick.lost), tick.reading, tick.now)
  }

  predicate FiresAt(line: Line, start: Option<Observation>, ticks: seq<Tick>, i: nat)
    requires i < |ticks|
  {
    Fires(Kept(Observed(start, ticks[..i]), ticks[i].lost), line.(updatedAt := ticks[i].updatedAt), ticks[i].reading)
  }

  /** A fresh usable price on or past the trigger. */
  predicate Reaches(line: Line, tick: Tick) {
    tick.reading.Fresh? && AtOrBeyond(line, tick.reading.price)
  }

  /**
   The line appears no earlier than the last price observed without it, edits only move updatedAt
   forward, and it was not armed exactly on its trigger, which create and update refuse.
   */
  ghost predicate Followed(line: Line, start: Option<Observation>, ticks: seq<Tick>) {
    && line.armPrice != line.triggerPrice
    && (start.Some? ==> forall i :: 0 <= i < |ticks| ==> start.value.at <= ticks[i].updatedAt)
    && (forall i, j :: 0 <= i <= j < |ticks| ==> ticks[i].updatedAt <= ticks[j].updatedAt)
  }

  /** Whatever was lost or edited, a price still standing was read at a tick that saw the line, or predates it. */
  lemma {:induction false} StandingPriceIsOnArmedSide(line: Line, start: Option<Observation>, ticks: seq<Tick>, i: nat)
    requires Followed(line, start, ticks) && i <= |ticks|
    requires forall j :: 0 <= j < i ==> !Reaches(line, ticks[j])
    ensures var standing := Observed(start, ticks[..i]);
            standing.Some? ==> standing == start || !AtOrBeyond(line, standing.value.price)
  {
    if i > 0 {
      StandingPriceIsOnArmedSide(line, start, ticks, i - 1);
      assert ticks[..i][..i - 1] == ticks[..i - 1];
    }
  }

  /**
   First crossing: as long as no earlier tick reached the trigger, a tick calls fire exactly when
   its own fresh price is on or past it.
   */
  lemma FirstCrossing(line: Line, start: Option<Observation>, ticks: seq<Tick>, i: nat)
    requires Followed(line, start, ticks) && i < |ticks|
    requires forall j :: 0 <= j < i ==> !Reaches(line, ticks[j])
    ensures FiresAt(line, start, ticks, i) <==> Reaches(line, ticks[i])
  {
    StandingPriceIsOnArmedSide(line, start, ticks, i);
  }

  /** So the first call to fire over a whole history is at the first tick that reaches the trigger, and there is none before. */
  lemma {:induction false} FirstFireIsFirstReach(line: Line, start: Option<Observation>, ticks: seq<Tick>, i: nat)
    requires Followed(line, start, ticks) && i < |ticks|
    ensures (FiresAt(line, start, ticks, i) && forall j :: 0 <= j < i ==> !FiresAt(line, start, ticks, j)) <==>
            (Reaches(line, ticks[i]) && forall j :: 0 <= j < i ==> !Reaches(line, ticks[j]))
  {
    if forall j :: 0 <= j < i ==> !FiresAt(line, start, ticks, j) {
      QuietMeansUnreached(line, start, ticks, i);
    }
    if forall j :: 0 <= j < i ==> !Reaches(line, ticks[j]) {
      FirstCrossing(line, start, ticks, i);
      forall j | 0 <= j < i ensures !FiresAt(line, start, ticks, j) { FirstCrossing(line, start, ticks, j); }
    }
  }

  lemma {:induction false} QuietMeansUnreached(line: Line, start: Option<Observation>, ticks: seq<Tick>, i: nat)
    requires Followed(line, start, ticks) && i <= |ticks|
    requires forall j :: 0 <= j < i ==> !FiresAt(line, start, ticks, j)
    ensures forall j :: 0 <= j < i ==> !Reaches(line, ticks[j])
  {
    if i > 0 {
      QuietMeansUnreached(line, start, ticks, i - 1);
      FirstCrossing(line, start, ticks, i - 1);
    }
  }

  /**
   A crossing whose claim was lost is not seen again: once a price strictly past the trigger
   stands, the next fresh price fires only from the arm price, after a loss or an edit.
   */
  lemma LostCrossingIsNotRetried(line: Line, start: Option<Observation>, ticks: seq<Tick>, i: nat)
    requires Followed(line, start, ticks) && i + 1 < |ticks|
    requires Reaches(line, ticks[i]) && ticks[i].reading.price != line.triggerPrice && Reaches(line, ticks[i + 1])
    ensures FiresAt(line, start, ticks, i + 1) <==> ticks[i + 1].lost || ticks[i + 1].updatedAt >= ticks[i].now
  {
    assert ticks[..i + 1][..i] == ticks[..i];
  }

  // ---------------------------------------------------------------------------
  // The client's trigger
  // ---------------------------------------------------------------------------

  datatype TriggerError = QuoteUnavailable | QuoteStale | NotCrossed

  /** The server's own check of a crossing a client reports; an unreadable timestamp counts as stale here. */
  function TriggerCheck(line: Line, last: Option<real>, quotedAt: Option<Time>, now: Time, staleMs: int): Result<real, TriggerError> {
    if last.None? || last.value <= 0.0 then Failure(QuoteUnavailable)
    else if quotedAt.None? || now - quotedAt.value > staleMs then Failure(QuoteStale)
    else if !Crossed(line, line.armPrice, last.value) then Failure(NotCrossed)
    else Success(last.value)
  }

  /** The server lets a client fire exactly on a fresh, dated price that reaches the trigger, one the watcher would act on too. */
  lemma TriggerNeedsFreshCrossing(line: Line, last: Option<real>, quotedAt: Option<Time>, now: Time, staleMs: int)
    ensures TriggerCheck(line, last, quotedAt, now, staleMs).Success? <==>
            quotedAt.Some? && Read(Quote(last, quotedAt), now, staleMs).Fresh? && AtOrBeyond(line, last.value)
    ensures TriggerCheck(line, last, quotedAt, now, staleMs).Success? ==>
              Fires(None, line, Read(Quote(last, quotedAt), now, staleMs)) && Some(TriggerCheck(line, last, quotedAt, now, staleMs).value) == last
    ensures var answer := TriggerCheck(line, last, quotedAt, now, staleMs); var reading := Read(Quote(last, quotedAt), now, staleMs);
            && (answer == Failure(QuoteUnavailable) <==> reading.Nothing?)
            && (answer == Failure(QuoteStale) <==> reading.Stale? || (reading.Fresh? && quotedAt.None?))
            && (answer == Failure(NotCrossed) <==> reading.Fresh? && quotedAt.Some? && !AtOrBeyond(line, last.value))
  {
  }
}
