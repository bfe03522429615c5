/** What each kind of row comes to at a client of the stream, how a connection ends, and that catching up comes to an end. */
module StreamEffects {
  import opened Wrappers
  import opened EventLog
  import opened StreamReplay

  // ---------------------------------------------------------------------------
  // One row
  // ---------------------------------------------------------------------------

  /**
   A live alert goes out unless it is one of the last 2048 that did; a live configuration only moves the
   cursor; anything else moves it if it is past the cursor, and goes out if it is an order or a line.
   */
  lemma SendMeans(client: Client, row: Row, live: bool)
    ensures var after := SendDurable(client, row, live);
            var later := if row.sequence > client.last then row.sequence else client.last;
            match row.kind
            case IvAlert =>
              if live then
                if row.id in client.delivered then after == client
                else after == client.(last := later, alerts := client.alerts + [row], delivered := after.delivered)
                     && after.delivered == Newest(client.delivered + [row.id])
              else after == client.(last := later)
            case IvAlertConfiguration => after == client.(last := later)
            case OrderUpdate => after == client.(last := later, sent := client.sent + if row.sequence > client.last then [row] else [])
            case ChartOrder => after == client.(last := later, sent := client.sent + if row.sequence > client.last then [row] else [])
  {
    assert client.sent + [] == client.sent;
  }

  /** The oldest is dropped beyond 2048. */
  function Newest(ids: seq<EventId>): seq<EventId> {
    if |ids| > 2048 then ids[1..] else ids
  }

  /** A row of the client's own user is buffered until the client is live and sent from then on; no other row reaches it. */
  lemma PushMeans(client: Client, row: Row)
    ensures var after := Push(client, row);
            match client.phase
            case Closed => after == client
            case Live => after == if row.user == client.user then SendDurable(client, row, true) else client
            case _ => after == client.(pending := client.pending + if row.user == client.user then [row] else [])
  {
    assert client.pending + [] == client.pending;
  }

  /** The starting point of a client without a cursor: the tail, or right before the earliest buffered row if that is lower. */
  lemma StartingMeans(tail: nat, pending: seq<Row>)
    ensures var start := StartingPoint(tail, pending);
            && start <= tail && (forall row :: row in pending && row.sequence > 0 ==> start < row.sequence)
            && (start == tail || exists row :: row in pending && (row.sequence == start + 1 || row.sequence == start == 0))
  {
    if pending != [] { LowestMeans(pending); }
  }

  lemma {:induction false} LowestMeans(rows: seq<Row>)
    requires rows != []
    ensures forall row :: row in rows ==> LowestSequence(rows) <= row.sequence
    ensures exists row :: row in rows && row.sequence == LowestSequence(rows)
  {
    var n := |rows| - 1;
    assert rows == rows[..n] + [rows[n]];
    if n > 0 { LowestMeans(rows[..n]); }
  }

  // ---------------------------------------------------------------------------
  // Ends
  // ---------------------------------------------------------------------------

  /** A closed connection sends nothing and buffers nothing, whatever comes. */
  lemma {:induction false} ClosedIsFinal(start: World, events: seq<Event>, later: seq<Event>)
    requires After(start, events).client.phase.Closed? && After(start, events).client.pending == []
    ensures After(start, events + later).client == After(start, events).client
  {
    hide LogStep;
    if later == [] {
      assert events + later == events;
    } else {
      var n := |later| - 1;
      ClosedIsFinal(start, events, later[..n]);
      assert (events + later)[..|events + later| - 1] == events + later[..n];
    }
  }

  /** Hanging up closes at any time, a failed query closes a client that still waits for one; what went out stays as it was. */
  lemma ClosingMeans(start: World, events: seq<Event>)
    ensures var (w, after) := (After(start, events), After(start, events + [Disconnect]));
            after == w.(client := w.client.(phase := Closed, pending := []))
    ensures var (w, after) := (After(start, events), After(start, events + [QueryFails]));
            after == match w.client.phase
                     case Fetching(_) => w.(client := w.client.(phase := Closed, pending := []))
                     case Measuring => w.(client := w.client.(phase := Closed, pending := []))
                     case Polling(_) => w.(client := w.client.(phase := Closed, pending := []))
                     case _ => w
  {
    assert (events + [Disconnect])[..|events|] == events;
    assert (events + [QueryFails])[..|events|] == events;
  }

  // ---------------------------------------------------------------------------
  // Catching up ends
  // ---------------------------------------------------------------------------

  function Rounds(n: nat): seq<Event> {
    if n == 0 then [] else Rounds(n - 1) + [PageAnswered, PageHandled]
  }

  /** One page: a full one brings the client a thousand events on, anything less makes it live. */
  lemma OneRound(w: World)
    requires LogOk(w.log) && w.client.phase.Fetching?
    ensures var (user, after) := (w.client.user, w.client.phase.after);
            var missing := Missing(w.log.rows, user, after);
            var next := Step(Step(w, PageAnswered), PageHandled);
            && next.log == w.log && next.client.user == user
            && if |missing| < 1_000 then next.client.phase.Live?
               else next.client.phase == Fetching(after + 1_000) && |Missing(w.log.rows, user, after + 1_000)| == |missing| - 1_000
  {
    hide SendAll, UserRows, Page, Switched;
    var (rows, user, after) := (w.log.rows, w.client.user, w.client.phase.after);
    assert Counted(rows) by { GoodLogCounts(w.log); }
    PageIsStretch(rows, user, after, 1_000);
    UserSequences(rows, user);
    var page := Page(rows, user, after, 1_000);
    var paged := w.client.(phase := Paged(page));
    assert Step(w, PageAnswered).client == paged;
    SendingKeepsUser(paged, page, false);
    var caught := SendAll(paged, page, false);
    SwitchingKeepsUser(caught);
    SwitchingGoesLive(caught);
    if |page| == 1_000 {
      assert page[999] == UserRows(rows, user)[after + 999];
    }
  }

  lemma GoodLogCounts(log: Log)
    requires LogOk(log)
    ensures Counted(log.rows)
  {
  }

  lemma TwoSteps(start: World, events: seq<Event>, a: Event, b: Event)
    requires Enabled(After(start, events), a) && Enabled(Step(After(start, events), a), b)
    ensures After(start, events + [a, b]) == Step(Step(After(start, events), a), b)
  {
    assert (events + [a, b])[..|events| + 1] == events + [a];
    assert (events + [a])[..|events|] == events;
  }

  lemma RoundAfter(start: World, events: seq<Event>)
    requires After(start, events).client.phase.Fetching?
    ensures After(start, events + [PageAnswered, PageHandled]) == Step(Step(After(start, events), PageAnswered), PageHandled)
  {
    hide Page, HandlePage;
    TwoSteps(start, events, PageAnswered, PageHandled);
  }

  lemma {:induction false} RoundsAdvance(start: World, events: seq<Event>, n: nat)
    requires LogOk(After(start, events).log) && After(start, events).client.phase.Fetching?
    requires var w := After(start, events); 1_000 * n <= |Missing(w.log.rows, w.client.user, w.client.phase.after)|
    ensures var (w, next) := (After(start, events), After(start, events + Rounds(n)));
            && next.log == w.log && next.client.user == w.client.user && next.client.phase == Fetching(w.client.phase.after + 1_000 * n)
            && |Missing(w.log.rows, w.client.user, w.client.phase.after + 1_000 * n)|
               == |Missing(w.log.rows, w.client.user, w.client.phase.after)| - 1_000 * n
  {
    hide LogOk, Missing, Step, Enabled;
    if n == 0 {
      assert events + Rounds(0) == events;
    } else {
      RoundsAdvance(start, events, n - 1);
      OneRound(After(start, events + Rounds(n - 1)));
      RoundAfter(start, events + Rounds(n - 1));
      assert events + Rounds(n) == events + Rounds(n - 1) + [PageAnswered, PageHandled];
    }
  }

  /**
   Catching up ends: from any point at which a page is due, as many pages as there are thousands missing,
   and one more, make the client live, and by then it has everything replayable of the log after its cursor.
   */
  lemma CatchUpEnds(log: Log, passed: nat, user: string, cursor: nat, events: seq<Event>)
    requires LogOk(log) && passed <= |log.rows|
    requires After(Connected(log, passed, user, Some(cursor)), events).client.phase.Fetching?
    ensures var start := Connected(log, passed, user, Some(cursor)); var w := After(start, events);
            var n := |Missing(w.log.rows, w.client.user, w.client.phase.after)| / 1_000 + 1;
            var live := After(start, events + Rounds(n));
            live.client.phase.Live? && live.log == w.log
            && live.client.sent == Select(Stretch(UserRows(w.log.rows, user), cursor, live.client.last), Replayed)
  {
    hide LogOk, Missing, UserRows, Step, Enabled, WorldOk;
    var start := Connected(log, passed, user, Some(cursor));
    ConnectedOk(log, passed, user, Some(cursor));
    EveryConnectionIsOk(start, events);
    var w := After(start, events);
    WorldHasLog(w);
    var n := |Missing(w.log.rows, w.client.user, w.client.phase.after)| / 1_000;
    RoundsAdvance(start, events, n);
    OneRound(After(start, events + Rounds(n)));
    RoundAfter(start, events + Rounds(n));
    assert events + Rounds(n + 1) == events + Rounds(n) + [PageAnswered, PageHandled];
    ClientReceivesEveryEvent(log, passed, user, cursor, events + Rounds(n + 1));
  }

  /** A client without a cursor is live after two answers. */
  lemma NewClientGoesLive(log: Log, passed: nat, user: string)
    ensures var w := After(Connected(log, passed, user, None), [TailAnswered, PollReturned]);
            w.client.phase.Live? && w.log == log && w.client.base == LatestSequence(log.rows, user)
            && w.client.sent == [] && w.client.handshake == Some(LatestSequence(log.rows, user))
  {
    hide LatestSequence;
    var start := Connected(log, passed, user, None);
    assert After(start, []) == start;
    TwoSteps(start, [], TailAnswered, PollReturned);
    assert [] + [TailAnswered, PollReturned] == [TailAnswered, PollReturned];
  }
}
