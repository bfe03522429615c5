/**
 The log and its pollers run together: publishers commit, instances join, and every instance polls,
 waits for its query, emits and coalesces requests, in any interleaving and with failing queries.
 */
module EventDelivery {
  import opened Wrappers
  import opened EventLog
  import opened EventPoller

  /**
   Where an instance's poll loop stands: waiting for a query, about to emit its answer, about to look
   at the request flag, or finished but not yet marked as finished.
   */
  datatype Phase = Idle | Querying | Holding(answer: seq<Row>) | Checking | Closing

  /**
   start and first say where the instance joined, as an ordinal and as a position. begun and promised
   are history: the length of the log when the current round began, and when the last request that
   the loop undertook to serve was made.
   */
  datatype Instance = Instance(start: nat, first: nat, poller: Poller, phase: Phase, requested: bool, begun: nat, promised: nat)

  datatype World = World(log: Log, instances: seq<Instance>)

  datatype Event =
    | Commit(change: LogEvent)
    | Join
    | PollOnce(who: nat)
    | Answer(who: nat)
    | QueryFails(who: nat)
    | Deliver(who: nat)
    | Check(who: nat)
    | Close(who: nat)

  function Joined(log: Log): Instance {
    var last := if log.rows == [] then 0 else log.rows[|log.rows| - 1].ordinal;
    Instance(last, |log.rows|, Poller(last, {}, [], []), Idle, false, 0, 0)
  }

  function Requested(log: Log, it: Instance): Instance {
    if it.phase.Idle? then it.(phase := Querying, requested := false, begun := |log.rows|, promised := |log.rows|)
    else if it.phase.Closing? then it.(requested := true)
    else it.(requested := true, promised := |log.rows|)
  }

  /** The poll loop's own next step. */
  function Advance(log: Log, it: Instance): Instance {
    match it.phase
    case Idle => it
    case Querying => it.(phase := Holding(Query(log.rows, it.poller.last)))
    case Holding(rows) => it.(poller := TakeAll(it.poller, rows), phase := if |rows| < CHUNK then Checking else Querying)
    case Checking =>
      if it.requested then it.(phase := Querying, requested := false, begun := |log.rows|) else it.(phase := Closing)
    case Closing => it.(phase := Idle)
  }

  /** A failed query rejects the loop; whatever it had undertaken waits for the next poll. */
  function Failed(it: Instance): Instance {
    it.(phase := Closing, promised := 0)
  }

  predicate Enabled(w: World, e: Event) {
    match e
    case Commit(_) => true
    case Join => true
    case PollOnce(i) => i < |w.instances|
    case Answer(i) => i < |w.instances| && w.instances[i].phase.Querying?
    case QueryFails(i) => i < |w.instances| && w.instances[i].phase.Querying?
    case Deliver(i) => i < |w.instances| && w.instances[i].phase.Holding?
    case Check(i) => i < |w.instances| && w.instances[i].phase.Checking?
    case Close(i) => i < |w.instances| && w.instances[i].phase.Closing?
  }

  function Step(w: World, e: Event): World
    requires Enabled(w, e)
  {
    match e
    case Commit(change) => w.(log := LogStep(w.log, change))
    case Join => w.(instances := w.instances + [Joined(w.log)])
    case PollOnce(i) => w.(instances := w.instances[i := Requested(w.log, w.instances[i])])
    case QueryFails(i) => w.(instances := w.instances[i := Failed(w.instances[i])])
    case Answer(i) => w.(instances := w.instances[i := Advance(w.log, w.instances[i])])
    case Deliver(i) => w.(instances := w.instances[i := Advance(w.log, w.instances[i])])
    case Check(i) => w.(instances := w.instances[i := Advance(w.log, w.instances[i])])
    case Close(i) => w.(instances := w.instances[i := Advance(w.log, w.instances[i])])
  }

  /** The world after a schedule, from the empty log without instances; a step that is not due does nothing. */
  function After(events: seq<Event>): World {
    if events == [] then World(EMPTY, [])
    else
      var before := After(events[..|events| - 1]);
      if Enabled(before, events[|events| - 1]) then Step(before, events[|events| - 1]) else before
  }

  // ---------------------------------------------------------------------------
  // The invariant
  // ---------------------------------------------------------------------------

  ghost predicate PhaseOk(rows: seq<Row>, it: Instance) {
    var next := Next(it.poller, it.first);
    match it.phase
    case Idle => it.promised <= next
    case Closing => it.promised <= next
    case Checking => it.requested || it.promised <= next
    case Querying => it.requested || it.promised <= it.begun
    case Holding(answer) =>
      && (it.requested || it.promised <= it.begun)
      && next + |answer| <= |rows| && answer == rows[next..next + |answer|]
      && (|answer| < CHUNK ==> it.begun <= next + |answer|)
  }

  ghost predicate InstanceOk(log: Log, it: Instance) {
    && Follows(it.poller, log.rows, it.first)
    && (forall i :: 0 <= i < it.first ==> log.rows[i].ordinal <= it.start)
    && (forall i :: it.first <= i < |log.rows| ==> log.rows[i].ordinal > it.start)
    && it.start < log.nextOrdinal && it.poller.last < log.nextOrdinal
    && it.begun <= |log.rows| && it.promised <= |log.rows|
    && PhaseOk(log.rows, it)
  }

  ghost predicate WorldOk(w: World) {
    && LogOk(w.log)
    && (forall i :: 0 <= i < |w.instances| ==> InstanceOk(w.log, w.instances[i]))
  }

  lemma JoinedIsOk(log: Log)
    requires LogOk(log)
    ensures InstanceOk(log, Joined(log))
  {
  }

  lemma RequestedIsOk(log: Log, it: Instance)
    requires InstanceOk(log, it)
    ensures InstanceOk(log, Requested(log, it))
  {
    hide Follows;
  }

  lemma AdvancedIsOk(log: Log, it: Instance)
    requires LogOk(log) && InstanceOk(log, it)
    ensures InstanceOk(log, Advance(log, it))
  {
    hide Follows, TakeAll, Query, Counted;
    if it.phase.Querying? {
      QueryIsStretch(it.poller, log.rows, it.first);
    } else if it.phase.Holding? {
      TakeAllFollows(it.poller, log, it.first, |it.phase.answer|);
      TakeAllBelow(it.poller, it.phase.answer, log.nextOrdinal);
    }
  }

  lemma CommitKeepsInstance(log: Log, change: LogEvent, it: Instance)
    requires LogOk(log) && InstanceOk(log, it)
    ensures LogOk(LogStep(log, change)) && InstanceOk(LogStep(log, change), it)
  {
    hide Follows, PhaseOk, Counted, FindKey, LatestSequence, Conflicts;
    if change.PublishEvent? && Publish(log, change.draft).Success? {
      PublishKeepsLog(log, change.draft);
      if Repeated(log, change.draft).None? {
        RowAppended(log, LogStep(log, change), it);
      }
    }
  }

  lemma RowAppended(log: Log, after: Log, it: Instance)
    requires LogOk(log) && InstanceOk(log, it) && after.nextOrdinal == log.nextOrdinal + 1
    requires |after.rows| == |log.rows| + 1 && after.rows[..|log.rows|] == log.rows
    requires after.rows[|log.rows|].ordinal == log.nextOrdinal
    ensures InstanceOk(after, it)
  {
    hide Counted, Remembers;
    var n := Next(it.poller, it.first);
    assert after.rows[it.first..n] == log.rows[it.first..n];
    forall i | 0 <= i < |log.rows| ensures after.rows[i] == log.rows[i] {
      assert after.rows[..|log.rows|][i] == log.rows[i];
    }
    assert it.phase.Holding? ==> after.rows[n..n + |it.phase.answer|] == log.rows[n..n + |it.phase.answer|];
  }

  lemma {:induction false} TakeAllBelow(p: Poller, rows: seq<Row>, bound: nat)
    requires p.last < bound && forall i :: 0 <= i < |rows| ==> rows[i].ordinal < bound
    ensures TakeAll(p, rows).last < bound
  {
    if rows != [] { TakeAllBelow(p, rows[..|rows| - 1], bound); }
  }

  lemma StepKeepsWorld(w: World, e: Event)
    requires WorldOk(w) && Enabled(w, e)
    ensures WorldOk(Step(w, e))
  {
    hide InstanceOk, LogOk, LogStep, Requested, Advance;
    match e
    case Commit(change) =>
      CommitKeepsLog(w.log, change);
      forall i | 0 <= i < |w.instances| ensures InstanceOk(LogStep(w.log, change), w.instances[i]) {
        CommitKeepsInstance(w.log, change, w.instances[i]);
      }
    case Join => JoinedIsOk(w.log);
    case PollOnce(i) => RequestedIsOk(w.log, w.instances[i]);
    case QueryFails(i) => FailedIsOk(w.log, w.instances[i]);
    case Answer(i) => AdvancedIsOk(w.log, w.instances[i]);
    case Deliver(i) => AdvancedIsOk(w.log, w.instances[i]);
    case Check(i) => AdvancedIsOk(w.log, w.instances[i]);
    case Close(i) => AdvancedIsOk(w.log, w.instances[i]);
  }

  lemma FailedIsOk(log: Log, it: Instance)
    requires InstanceOk(log, it)
    ensures InstanceOk(log, Failed(it))
  {
  }

  lemma CommitKeepsLog(log: Log, change: LogEvent)
    requires LogOk(log)
    ensures LogOk(LogStep(log, change))
  {
    if change.PublishEvent? && Publish(log, change.draft).Success? { PublishKeepsLog(log, change.draft); }
  }

  lemma {:induction false} EveryWorldIsOk(events: seq<Event>)
    ensures WorldOk(After(events))
  {
    hide InstanceOk, Step, Enabled;
    if events != [] {
      var before := After(events[..|events| - 1]);
      EveryWorldIsOk(events[..|events| - 1]);
      if Enabled(before, events[|events| - 1]) { StepKeepsWorld(before, events[|events| - 1]); }
    }
  }

  // ---------------------------------------------------------------------------
  // What every run guarantees
  // ---------------------------------------------------------------------------

  /**
   Exactly once, in ordinal order: at every moment of every run, what an instance has emitted is the
   stretch of the log from where it joined up to its last ordinal. Nothing was skipped or repeated
   by chunks, coalesced requests, failed queries or forgotten ids.
   */
  lemma EveryInstanceEmitsTheLogInOrder(events: seq<Event>, i: nat)
    requires i < |After(events).instances|
    ensures var w := After(events); var it := w.instances[i];
            && Above(w.log.rows, it.start) == it.poller.emitted + Above(w.log.rows, it.poller.last)
            && (forall j, k :: 0 <= j < k < |it.poller.emitted| ==> it.poller.emitted[j].ordinal < it.poller.emitted[k].ordinal)
  {
    EveryWorldIsOk(events);
    EmittedIsStretch(After(events).log, After(events).instances[i]);
  }

  lemma EmittedIsStretch(log: Log, it: Instance)
    requires LogOk(log) && InstanceOk(log, it)
    ensures Above(log.rows, it.start) == it.poller.emitted + Above(log.rows, it.poller.last)
    ensures forall j, k :: 0 <= j < k < |it.poller.emitted| ==> it.poller.emitted[j].ordinal < it.poller.emitted[k].ordinal
  {
    hide Counted, Remembers, PhaseOk, Above;
    var rows := log.rows;
    var n := Next(it.poller, it.first);
    AboveIsTail(rows, it.first, it.start);
    AboveIsTail(rows, n, it.poller.last);
    assert rows[it.first..] == rows[it.first..n] + rows[n..];
    assert forall j :: 0 <= j < |it.poller.emitted| ==> it.poller.emitted[j] == rows[it.first + j];
  }

  /** The row stores the draft as it was given. */
  predicate StoredAs(row: Row, draft: Draft) {
    draft == Draft(row.id, row.user, row.dedupeKey, row.kind, row.payload)
  }

  /** A commit of this schedule published a draft that the row stores. */
  ghost predicate WasPublished(events: seq<Event>, row: Row) {
    exists k :: 0 <= k < |events| && events[k].Commit? && events[k].change.PublishEvent? && StoredAs(row, events[k].change.draft)
  }

  /** Every row of the log was published. */
  lemma {:induction false} EveryRowWasPublished(events: seq<Event>, i: nat)
    requires i < |After(events).log.rows|
    ensures WasPublished(events, After(events).log.rows[i])
  {
    var n := |events| - 1;
    if events != [] {
      var (front, e) := (events[..n], events[n]);
      EveryWorldIsOk(front);
      var log := After(front).log;
      if i < |log.rows| {
        RowsStay(front, e);
        EveryRowWasPublished(front, i);
        var k :| 0 <= k < n && front[k].Commit? && front[k].change.PublishEvent? && StoredAs(log.rows[i], front[k].change.draft);
        assert events[k] == front[k];
      } else {
        assert e.Commit? && e.change.PublishEvent?;
        PublishMeans(log, e.change.draft);
        assert events[n] == e;
      }
    }
  }

  lemma RowsStay(events: seq<Event>, e: Event)
    requires WorldOk(After(events))
    ensures var (before, after) := (After(events).log.rows, After(events + [e]).log.rows); |before| <= |after| && after[..|before|] == before
  {
    assert (events + [e])[..|events|] == events;
    hide WorldOk, Advance, Requested;
    if e.Commit? && e.change.PublishEvent? && Publish(After(events).log, e.change.draft).Success? {
      assert LogOk(After(events).log) by { WorldHasGoodLog(After(events)); }
      PublishMeans(After(events).log, e.change.draft);
    }
  }

  lemma WorldHasGoodLog(w: World)
    requires WorldOk(w)
    ensures LogOk(w.log)
  {
  }

  /** Whatever an instance emits was published, and as it was published: the same kind and payload, for the same user. */
  lemma EmittedWasPublished(events: seq<Event>, i: nat, j: nat)
    requires i < |After(events).instances| && j < |After(events).instances[i].poller.emitted|
    ensures WasPublished(events, After(events).instances[i].poller.emitted[j])
  {
    EveryWorldIsOk(events);
    var it := After(events).instances[i];
    hide After, WasPublished, LogOk;
    assert InstanceOk(After(events).log, it);
    assert it.poller.emitted[j] == After(events).log.rows[it.first + j];
    EveryRowWasPublished(events, it.first + j);
  }

  /**
   A poll request starts a round for everything committed so far when the loop is idle, and otherwise
   asks the loop for one more round, which the loop undertakes unless it has already looked for the last time.
   */
  lemma RequestMeans(events: seq<Event>, i: nat)
    requires i < |After(events).instances|
    ensures var (w, after) := (After(events), After(events + [PollOnce(i)])); var it := w.instances[i]; var n := |w.log.rows|;
            after.log == w.log && after.instances == w.instances[i :=
              match it.phase
              case Idle => Instance(it.start, it.first, it.poller, Querying, false, n, n)
              case Closing => Instance(it.start, it.first, it.poller, it.phase, true, it.begun, it.promised)
              case _ => Instance(it.start, it.first, it.poller, it.phase, true, it.begun, n)]
  {
    assert (events + [PollOnce(i)])[..|events|] == events;
  }

  /** A failed query ends the round with nothing emitted and the flag as it was; the loop is then marked finished. */
  lemma FailureMeans(events: seq<Event>, i: nat)
    requires i < |After(events).instances| && After(events).instances[i].phase.Querying?
    ensures var (w, after) := (After(events), After(events + [QueryFails(i)])); var it := w.instances[i];
            after.log == w.log && after.instances == w.instances[i := Instance(it.start, it.first, it.poller, Closing, it.requested, it.begun, 0)]
    ensures var (w, closed) := (After(events), After(events + [QueryFails(i), Close(i)]));
            |closed.instances| == |w.instances| && closed.instances[i].phase.Idle? && closed.instances[i].poller == w.instances[i].poller
            && closed.instances[i].requested == w.instances[i].requested
  {
    assert (events + [QueryFails(i)])[..|events|] == events;
    assert (events + [QueryFails(i), Close(i)])[..|events| + 1] == events + [QueryFails(i)];
  }

  /** Two instances never disagree: at the same ordinal, the later one has emitted the end of what the earlier one has. */
  lemma InstancesAgree(events: seq<Event>, i: nat, j: nat)
    requires i < |After(events).instances| && j < |After(events).instances|
    requires var (a, b) := (After(events).instances[i], After(events).instances[j]);
             a.start <= b.start && a.poller.last == b.poller.last
    ensures exists early: seq<Row> :: After(events).instances[i].poller.emitted == early + After(events).instances[j].poller.emitted
  {
    EveryWorldIsOk(events);
    var early := EmittedAgree(After(events).log, After(events).instances[i], After(events).instances[j]);
  }

  lemma EmittedAgree(log: Log, a: Instance, b: Instance) returns (early: seq<Row>)
    requires LogOk(log) && InstanceOk(log, a) && InstanceOk(log, b)
    requires a.start <= b.start && a.poller.last == b.poller.last
    ensures a.poller.emitted == early + b.poller.emitted
  {
    hide LogOk, Remembers, PhaseOk;
    var (rows, m, n) := (log.rows, Next(a.poller, a.first), Next(b.poller, b.first));
    PositionsOrdered(rows, a.first, a.start, b.first, b.start);
    PositionsOrdered(rows, m, a.poller.last, n, b.poller.last);
    PositionsOrdered(rows, n, b.poller.last, m, a.poller.last);
    early := rows[a.first..b.first];
    assert rows[a.first..m] == early + rows[b.first..n];
  }

  lemma PositionsOrdered(rows: seq<Row>, m: nat, low: nat, n: nat, high: nat)
    requires m <= |rows| && n <= |rows| && low <= high
    requires forall i :: 0 <= i < m ==> rows[i].ordinal <= low
    requires forall i :: n <= i < |rows| ==> rows[i].ordinal > high
    ensures m <= n
  {
    var atN := if n < |rows| then rows[n].ordinal else 0;
    assert n < m ==> atN <= low;
  }

  /** Once the loop rests, every event committed before a request it undertook has been emitted. */
  lemma RestedLoopHasServedItsRequests(events: seq<Event>, i: nat, k: nat)
    requires i < |After(events).instances|
    requires After(events).instances[i].phase.Idle? || After(events).instances[i].phase.Closing?
    requires k < After(events).instances[i].promised && k < |After(events).log.rows|
    requires After(events).log.rows[k].ordinal > After(events).instances[i].start
    ensures After(events).log.rows[k] in After(events).instances[i].poller.emitted
  {
    EveryWorldIsOk(events);
    var it := After(events).instances[i];
    var rows := After(events).log.rows;
    assert InstanceOk(After(events).log, it);
    assert it.first <= k < Next(it.poller, it.first);
    assert it.poller.emitted[k - it.first] == rows[k];
  }

  // ---------------------------------------------------------------------------
  // Which requests are served
  // ---------------------------------------------------------------------------

  function Rank(phase: Phase): nat {
    match phase
    case Querying => 4
    case Holding(_) => 3
    case Checking => 2
    case Closing => 1
    case Idle => 0
  }

  /** The loop left alone until it rests: its queries are answered and nothing else happens. */
  ghost function Settle(log: Log, it: Instance): (rested: Instance)
    requires LogOk(log) && InstanceOk(log, it)
    ensures InstanceOk(log, rested) && rested.phase.Idle? && rested.promised == it.promised
    decreases it.requested, |log.rows| - Next(it.poller, it.first), Rank(it.phase)
  {
    if it.phase.Idle? then it
    else
      AdvancedIsOk(log, it);
      AdvanceGetsOn(log, it);
      Settle(log, Advance(log, it))
  }

  lemma AdvanceGetsOn(log: Log, it: Instance)
    requires LogOk(log) && InstanceOk(log, it) && !it.phase.Idle?
    ensures var (next, after) := (Advance(log, it), Next(Advance(log, it).poller, it.first));
            && next.first == it.first && next.promised == it.promised
            && Next(it.poller, it.first) <= after <= |log.rows|
            && (next.requested ==> it.requested)
            && (it.requested == next.requested ==>
                  after > Next(it.poller, it.first)
                  || (after == Next(it.poller, it.first) && Rank(next.phase) < Rank(it.phase)))
  {
    hide Follows, TakeAll, Query, LogOk;
    NextInRange(log, it);
    if it.phase.Holding? {
      TakeAllFollows(it.poller, log, it.first, |it.phase.answer|);
      NextInRange(log, it);
    }
  }

  lemma NextInRange(log: Log, it: Instance)
    requires InstanceOk(log, it)
    ensures Next(it.poller, it.first) <= |log.rows|
  {
  }

  /**
   A poll request brings everything committed so far out to the subscribers exactly when it does not
   fall between the loop's last look at the request flag and the loop being marked as finished.
   */
  lemma RequestIsServedIff(events: seq<Event>, i: nat)
    requires i < |After(events).instances|
    ensures var (log, it) := (After(events).log, After(events).instances[i]);
            LogOk(log) && InstanceOk(log, it) && InstanceOk(log, Requested(log, it)) &&
            (Above(log.rows, Settle(log, Requested(log, it)).poller.last) == []
             <==> !it.phase.Closing? || Above(log.rows, it.poller.last) == [])
  {
    EveryWorldIsOk(events);
    var (log, it) := (After(events).log, After(events).instances[i]);
    hide After, LogOk, InstanceOk, Above;
    RequestedIsOk(log, it);
    var rested := Settle(log, Requested(log, it));
    if it.phase.Closing? {
      var closed := Advance(log, Requested(log, it));
      assert rested.poller == it.poller by { SettleClosing(log, Requested(log, it)); }
    } else {
      PromiseIsKept(log, rested);
    }
  }

  lemma SettleClosing(log: Log, it: Instance)
    requires LogOk(log) && InstanceOk(log, it) && it.phase.Closing?
    ensures Settle(log, it).poller == it.poller
  {
    hide LogOk, InstanceOk;
    AdvancedIsOk(log, it);
    assert Settle(log, it) == Settle(log, Advance(log, it));
  }

  lemma PromiseIsKept(log: Log, it: Instance)
    requires InstanceOk(log, it) && it.phase.Idle? && it.promised == |log.rows|
    ensures Above(log.rows, it.poller.last) == []
  {
    AboveIsTail(log.rows, |log.rows|, it.poller.last);
  }

  const FIRST_EVENT := Draft(1, "user", None, OrderUpdate, "order")

  /** Such a request does occur: it is left in the flag, the loop rests, and the event waits for a later poll. */
  lemma LateRequestIsLeft()
    ensures exists events: seq<Event> :: var w := After(events);
              && |w.instances| == 1 && w.instances[0].phase.Idle? && w.instances[0].requested
              && |w.log.rows| == 1 && w.instances[0].poller.emitted == []
  {
    hide After, LogStep, TakeAll;
    var idle := Joined(EMPTY);
    var log := Log(2, [Row(1, 1, "user", 1, None, OrderUpdate, "order")]);
    var events := [];
    StartOfRun();
    events := Extended(events, Join, World(EMPTY, [idle]));
    events := Extended(events, PollOnce(0), World(EMPTY, [idle.(phase := Querying)]));
    events := Extended(events, Answer(0), World(EMPTY, [idle.(phase := Holding([]))]));
    assert TakeAll(idle.poller, []) == idle.poller by { TakeNone(idle.poller); }
    events := Extended(events, Deliver(0), World(EMPTY, [idle.(phase := Checking)]));
    events := Extended(events, Check(0), World(EMPTY, [idle.(phase := Closing)]));
    FirstEventIsPublished();
    events := Extended(events, Commit(PublishEvent(FIRST_EVENT)), World(log, [idle.(phase := Closing)]));
    events := Extended(events, PollOnce(0), World(log, [idle.(phase := Closing, requested := true)]));
    events := Extended(events, Close(0), World(log, [idle.(requested := true)]));
  }

  lemma StartOfRun()
    ensures After([]) == World(EMPTY, [])
  {
  }

  lemma TakeNone(p: Poller)
    ensures TakeAll(p, []) == p
  {
  }

  lemma Extended(events: seq<Event>, e: Event, w: World) returns (longer: seq<Event>)
    requires Enabled(After(events), e) && w == Step(After(events), e)
    ensures longer == events + [e] && After(longer) == w
  {
    longer := events + [e];
    assert longer[..|longer| - 1] == events;
  }

  lemma FirstEventIsPublished()
    ensures LogStep(EMPTY, PublishEvent(FIRST_EVENT)) == Log(2, [Row(1, 1, "user", 1, None, OrderUpdate, "order")])
  {
  }
}
