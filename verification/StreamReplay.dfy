/**
 One client of the stream: it connects with or without a cursor while events are committed and the
 instance's poller emits, is served the rows it missed page by page, is sent what was buffered
 meanwhile, and goes live. Between every two steps anything may be committed or emitted.
 */
module StreamReplay {
  import opened Wrappers
  import opened EventLog
  import opened Sorting

  const PAGE_LIMIT := 1_000
  const DELIVERED_LIMIT := 2_048

  datatype Phase =
    | Fetching(after: nat)       // a page of missed rows is asked for
    | Paged(page: seq<Row>)      // its answer, not yet sent
    | Measuring                  // a client without a cursor asks for the tail of the log
    | Polling(tail: nat)         // and then waits for one poll
    | Live
    | Closed                     // disconnected, or the replay failed

  /** base is the sequence the client starts from; sent and alerts are what went out. */
  datatype Client = Client(user: string, base: nat, last: nat, phase: Phase, pending: seq<Row>, delivered: seq<EventId>,
                           sent: seq<Row>, alerts: seq<Row>, handshake: Option<nat>)

  /** The instance had passed this much of the log when the client connected, and has passed that much by now. */
  datatype World = World(log: Log, joined: nat, passed: nat, client: Client)

  datatype Event =
    | Commit(change: LogEvent)
    | Emit                       // the poller hands the next row to its subscribers
    | PageAnswered
    | PageHandled
    | TailAnswered
    | PollReturned
    | QueryFails
    | Disconnect

  predicate Replayed(row: Row) { row.kind.OrderUpdate? || row.kind.ChartOrder? }

  predicate Alerting(row: Row) { row.kind.IvAlert? }

  function Select(rows: seq<Row>, keep: Row -> bool): seq<Row> {
    if rows == [] then []
    else
      var before := Select(rows[..|rows| - 1], keep);
      if keep(rows[|rows| - 1]) then before + [rows[|rows| - 1]] else before
  }

  // ---------------------------------------------------------------------------
  // Steps
  // ---------------------------------------------------------------------------

  function Max(a: nat, b: nat): nat { if a < b then b else a }

  function Min(a: nat, b: nat): nat { if a < b then a else b }

  function Remembered(delivered: seq<EventId>, id: EventId): seq<EventId> {
    var all := delivered + [id];
    if |all| > DELIVERED_LIMIT then all[1..] else all
  }

  function SendDurable(client: Client, row: Row, live: bool): Client {
    if row.kind.IvAlert? && live then
      if row.id in client.delivered then client
      else client.(delivered := Remembered(client.delivered, row.id), last := Max(client.last, row.sequence), alerts := client.alerts + [row])
    else if row.kind.IvAlertConfiguration? && live then client.(last := Max(client.last, row.sequence))
    else if row.sequence <= client.last then client
    else client.(last := row.sequence, sent := if Replayed(row) then client.sent + [row] else client.sent)
  }

  function SendAll(client: Client, rows: seq<Row>, live: bool): Client {
    if rows == [] then client else SendDurable(SendAll(client, rows[..|rows| - 1], live), rows[|rows| - 1], live)
  }

  function SequenceOf(row: Row): int { row.sequence }

  /** Catch-up is over: what was buffered goes out in sequence order, then the cursor. */
  function Switched(client: Client): Client {
    var flushed := SendAll(client.(phase := Live, pending := []), Sorted(client.pending, SequenceOf), true);
    flushed.(handshake := Some(flushed.last))
  }

  function Push(client: Client, row: Row): Client {
    if row.user != client.user || client.phase.Closed? then client
    else if client.phase.Live? then SendDurable(client, row, true)
    else client.(pending := client.pending + [row])
  }

  function LowestSequence(rows: seq<Row>): nat
    requires rows != []
  {
    if |rows| == 1 then rows[0].sequence else Min(LowestSequence(rows[..|rows| - 1]), rows[|rows| - 1].sequence)
  }

  /** A client without a cursor starts at the tail, or right before the first row that was buffered. */
  function StartingPoint(tail: nat, pending: seq<Row>): nat {
    if pending == [] then tail
    else if LowestSequence(pending) == 0 then 0
    else Min(tail, LowestSequence(pending) - 1)
  }

  predicate Enabled(w: World, e: Event) {
    match e
    case Commit(_) => true
    case Emit => w.passed < |w.log.rows|
    case PageAnswered => w.client.phase.Fetching?
    case PageHandled => w.client.phase.Paged?
    case TailAnswered => w.client.phase.Measuring?
    case PollReturned => w.client.phase.Polling?
    case QueryFails => w.client.phase.Fetching? || w.client.phase.Measuring? || w.client.phase.Polling?
    case Disconnect => true
  }

  function HandlePage(client: Client): Client
    requires client.phase.Paged?
  {
    var page := client.phase.page;
    var caught := SendAll(client, page, false);
    if |page| < PAGE_LIMIT then Switched(caught) else caught.(phase := Fetching(page[|page| - 1].sequence))
  }

  function Rebase(client: Client, start: nat): Client {
    client.(base := start, last := start)
  }

  function Step(w: World, e: Event): World
    requires Enabled(w, e)
  {
    match e
    case Commit(change) => w.(log := LogStep(w.log, change))
    case Emit => w.(passed := w.passed + 1, client := Push(w.client, w.log.rows[w.passed]))
    case PageAnswered =>
      w.(client := w.client.(phase := Paged(Page(w.log.rows, w.client.user, w.client.phase.after, PAGE_LIMIT))))
    case PageHandled => w.(client := HandlePage(w.client))
    case TailAnswered => w.(client := w.client.(phase := Polling(LatestSequence(w.log.rows, w.client.user))))
    case PollReturned => w.(client := Switched(Rebase(w.client, StartingPoint(w.client.phase.tail, w.client.pending))))
    case QueryFails => w.(client := w.client.(phase := Closed, pending := []))
    case Disconnect => w.(client := w.client.(phase := Closed, pending := []))
  }

  /** A client connects to an instance that has passed this much of the log. */
  function Connected(log: Log, passed: nat, user: string, cursor: Option<nat>): World {
    var from := if cursor.Some? then cursor.value else 0;
    World(log, passed, passed, Client(user, from, from, if cursor.Some? then Fetching(from) else Measuring, [], [], [], [], None))
  }

  /** The world after a schedule; a step that is not due does nothing. */
  function After(start: World, events: seq<Event>): World {
    if events == [] then start
    else
      var before := After(start, events[..|events| - 1]);
      if Enabled(before, events[|events| - 1]) then Step(before, events[|events| - 1]) else before
  }

  /** The gateway's state for one socket, updated in place. */
  class StreamClient {
    const user: string
    var base: nat
    var lastSequence: nat
    var phase: Phase
    var pending: seq<Row>
    var delivered: seq<EventId>
    var sent: seq<Row>
    var alerts: seq<Row>
    var handshake: Option<nat>

    constructor (user: string, cursor: Option<nat>)
      ensures Contents() == Connected(EMPTY, 0, user, cursor).client
    {
      this.user := user;
      base := if cursor.Some? then cursor.value else 0;
      lastSequence := if cursor.Some? then cursor.value else 0;
      phase := if cursor.Some? then Fetching(cursor.value) else Measuring;
      pending, delivered, sent, alerts, handshake := [], [], [], [], None;
    }

    function Contents(): Client
      reads this
    {
      Client(user, base, lastSequence, phase, pending, delivered, sent, alerts, handshake)
    }

    method Send(row: Row, live: bool)
      modifies this
      ensures Contents() == SendDurable(old(Contents()), row, live)
    {
      if row.kind.IvAlert? && live {
        if row.id in delivered { return; }
        delivered := delivered + [row.id];
        if |delivered| > DELIVERED_LIMIT { delivered := delivered[1..]; }
        lastSequence := Max(lastSequence, row.sequence);
        alerts := alerts + [row];
        return;
      }
      if row.kind.IvAlertConfiguration? && live {
        lastSequence := Max(lastSequence, row.sequence);
        return;
      }
      if row.sequence <= lastSequence { return; }
      lastSequence := row.sequence;
      if row.kind.OrderUpdate? || row.kind.ChartOrder? { sent := sent + [row]; }
    }

    method SendEach(rows: seq<Row>, live: bool)
      modifies this
      ensures Contents() == SendAll(old(Contents()), rows, live)
    {
      for i := 0 to |rows|
        invariant Contents() == SendAll(old(Contents()), rows[..i], live)
      {
        assert rows[..i + 1][..i] == rows[..i];
        Send(rows[i], live);
      }
      assert rows[..|rows|] == rows;
    }

    method PushDurableEvent(row: Row)
      modifies this
      ensures Contents() == Push(old(Contents()), row)
    {
      if row.user != user || phase.Closed? { return; }
      if phase.Live? { Send(row, true); } else { pending := pending + [row]; }
    }

    /** One answer of the paging loop: send it, then ask for the next page or go live. */
    method ReplayPage()
      requires phase.Paged?
      modifies this
      ensures Contents() == HandlePage(old(Contents()))
    {
      hide SendDurable;
      var page := phase.page;
      SendEach(page, false);
      if |page| < PAGE_LIMIT { GoLive(); } else { phase := Fetching(page[|page| - 1].sequence); }
    }

    method GoLive()
      modifies this
      ensures Contents() == Switched(old(Contents()))
    {
      var buffered := Sorted(pending, SequenceOf);
      phase, pending := Live, [];
      SendEach(buffered, true);
      handshake := Some(lastSequence);
    }

    /** A client without a cursor, after its poll. */
    method StartAtTail()
      requires phase.Polling?
      modifies this
      ensures Contents() == Switched(Rebase(old(Contents()), StartingPoint(old(phase.tail), old(pending))))
    {
      base := StartingPoint(phase.tail, pending);
      lastSequence := base;
      GoLive();
    }
  }

  // ---------------------------------------------------------------------------
  // Rows of one user
  // ---------------------------------------------------------------------------

  function CountAt(rows: seq<Row>, n: nat, user: string): nat
    requires n <= |rows|
  {
    |UserRows(rows[..n], user)|
  }

  /** The user's rows of a prefix of the log are a prefix of the user's rows. */
  lemma {:induction false} UserPrefix(rows: seq<Row>, n: nat, user: string)
    requires n <= |rows|
    ensures CountAt(rows, n, user) <= |UserRows(rows, user)|
    ensures UserRows(rows[..n], user) == UserRows(rows, user)[..CountAt(rows, n, user)]
    decreases |rows|
  {
    if n == |rows| {
      assert rows[..n] == rows;
    } else {
      var front := rows[..|rows| - 1];
      assert front[..n] == rows[..n];
      UserPrefix(front, n, user);
    }
  }

  /** The row at position n is the user's next one, or another user's. */
  lemma NextUserRow(rows: seq<Row>, n: nat, user: string)
    requires n < |rows|
    ensures CountAt(rows, n + 1, user) == CountAt(rows, n, user) + if rows[n].user == user then 1 else 0
    ensures rows[n].user == user ==> CountAt(rows, n, user) < |UserRows(rows, user)| && UserRows(rows, user)[CountAt(rows, n, user)] == rows[n]
  {
    assert rows[..n + 1][..n] == rows[..n];
    UserPrefix(rows, n + 1, user);
  }

  lemma {:induction false} UserRowIsRow(rows: seq<Row>, user: string, k: nat) returns (i: nat)
    requires k < |UserRows(rows, user)|
    ensures i < |rows| && rows[i] == UserRows(rows, user)[k] && CountAt(rows, i, user) == k
  {
    var n := |rows| - 1;
    if k < |UserRows(rows[..n], user)| {
      i := UserRowIsRow(rows[..n], user, k);
      assert rows[..n][..i] == rows[..i];
    } else {
      i := n;
    }
  }

  /** No two rows of a user share an id. */
  lemma UserIdsDiffer(log: Log, user: string, k: nat, m: nat)
    requires LogOk(log) && k < m < |UserRows(log.rows, user)|
    ensures UserRows(log.rows, user)[k].id != UserRows(log.rows, user)[m].id
  {
    hide Counted;
    var i := UserRowIsRow(log.rows, user, k);
    var j := UserRowIsRow(log.rows, user, m);
    assert i != j;
  }

  lemma {:induction false} SelectAppend(rows: seq<Row>, row: Row, keep: Row -> bool)
    ensures Select(rows + [row], keep) == Select(rows, keep) + if keep(row) then [row] else []
  {
    assert (rows + [row])[..|rows|] == rows;
  }

  /** The rows with sequences above a and up to b. */
  function Stretch(all: seq<Row>, a: nat, b: nat): seq<Row> {
    if a <= b <= |all| then all[a..b] else []
  }

  predicate Numbered(all: seq<Row>) {
    forall k :: 0 <= k < |all| ==> all[k].sequence == k + 1
  }

  // ---------------------------------------------------------------------------
  // What a client has received
  // ---------------------------------------------------------------------------

  /** Everything replayable between its starting point and its cursor went out, once and in order. */
  ghost predicate SentOk(all: seq<Row>, client: Client) {
    && client.base <= client.last && (client.base < client.last ==> client.last <= |all|)
    && client.sent == Select(Stretch(all, client.base, client.last), Replayed)
  }

  /** No remembered alert is a row still to be emitted. */
  ghost predicate DeliveredOk(all: seq<Row>, client: Client, p: nat)
    requires p <= |all|
  {
    forall id :: id in client.delivered ==> exists i :: 0 <= i < p && all[i].id == id
  }

  ghost predicate AnswerOk(all: seq<Row>, client: Client, j: nat)
    requires client.phase.Paged?
  {
    var (page, last) := (client.phase.page, client.last);
    && (page != [] ==> last + |page| <= |all| && page == all[last..last + |page|])
    && (|page| < PAGE_LIMIT ==> j <= last + |page|)
  }

  ghost predicate PhaseOk(all: seq<Row>, client: Client, j: nat, p: nat)
    requires j <= p <= |all|
  {
    match client.phase
    case Fetching(after) => client.last == after
    case Paged(page) => AnswerOk(all, client, j)
    case Measuring => client.base == client.last == 0
    case Polling(tail) => client.base == client.last == 0 && j <= tail <= |all|
    case Live => p <= client.last && client.alerts == Select(all[j..p], Alerting)
    case Closed => true
  }

  ghost predicate ClientOk(all: seq<Row>, client: Client, j: nat, p: nat) {
    && j <= p <= |all| && SentOk(all, client) && DeliveredOk(all, client, p) && PhaseOk(all, client, j, p)
    && client.pending == (if client.phase.Live? || client.phase.Closed? then [] else all[j..p])
    && (client.phase.Live? || client.phase.Closed? || (client.alerts == [] && client.delivered == []))
  }

  ghost predicate WorldOk(w: World) {
    && LogOk(w.log) && w.joined <= w.passed <= |w.log.rows|
    && ClientOk(UserRows(w.log.rows, w.client.user), w.client,
                CountAt(w.log.rows, w.joined, w.client.user), CountAt(w.log.rows, w.passed, w.client.user))
  }

  // ---------------------------------------------------------------------------
  // Sending
  // ---------------------------------------------------------------------------

  /** Sending a row that is not beyond the next one keeps what went out complete. */
  lemma SendKeeps(all: seq<Row>, client: Client, k: nat, live: bool)
    requires Numbered(all) && k < |all| && k <= client.last && SentOk(all, client)
    requires all[k].id !in client.delivered
    ensures var after := SendDurable(client, all[k], live);
            && SentOk(all, after) && after.last == Max(client.last, k + 1)
            && after.alerts == client.alerts + (if live && Alerting(all[k]) then [all[k]] else [])
            && after == client.(last := after.last, sent := after.sent, alerts := after.alerts, delivered := after.delivered)
            && (forall id :: id in after.delivered ==> id in client.delivered || id == all[k].id)
            && (!live ==> after.delivered == client.delivered)
  {
    hide Select;
    if k == client.last {
      assert Stretch(all, client.base, k + 1) == Stretch(all, client.base, k) + [all[k]];
      SelectAppend(Stretch(all, client.base, k), all[k], Replayed);
    }
  }

  lemma {:induction false} PageKeeps(all: seq<Row>, client: Client, n: nat)
    requires Numbered(all) && client.last + n <= |all| && SentOk(all, client) && client.delivered == []
    ensures var after := SendAll(client, all[client.last..client.last + n], false);
            && SentOk(all, after) && after.last == client.last + n
            && after == client.(last := after.last, sent := after.sent)
  {
    hide SentOk, SendDurable;
    var rows := all[client.last..client.last + n];
    if n > 0 {
      assert rows[..n - 1] == all[client.last..client.last + n - 1];
      PageKeeps(all, client, n - 1);
      SendKeeps(all, SendAll(client, rows[..n - 1], false), client.last + n - 1, false);
    }
  }

  /** The buffered rows go out one after the other. */
  lemma {:induction false} FlushKeeps(log: Log, client: Client, j: nat, p: nat)
    requires LogOk(log) && Numbered(UserRows(log.rows, client.user)) && j <= p <= |UserRows(log.rows, client.user)|
    requires SentOk(UserRows(log.rows, client.user), client) && j <= client.last && client.delivered == [] && client.alerts == []
    ensures var all := UserRows(log.rows, client.user); var after := SendAll(client, all[j..p], true);
            && SentOk(all, after) && DeliveredOk(all, after, p) && after.last == Max(client.last, p)
            && after.alerts == Select(all[j..p], Alerting)
            && after == client.(last := after.last, sent := after.sent, alerts := after.alerts, delivered := after.delivered)
  {
    hide SentOk, SendDurable, LogOk;
    var all := UserRows(log.rows, client.user);
    if j < p {
      assert all[j..p][..p - 1 - j] == all[j..p - 1];
      FlushKeeps(log, client, j, p - 1);
      var before := SendAll(client, all[j..p - 1], true);
      FreshId(log, before, p - 1);
      SendKeeps(all, before, p - 1, true);
      assert all[j..p] == all[j..p - 1] + [all[p - 1]];
      SelectAppend(all[j..p - 1], all[p - 1], Alerting);
    }
  }

  lemma FreshId(log: Log, client: Client, p: nat)
    requires LogOk(log) && p < |UserRows(log.rows, client.user)| && DeliveredOk(UserRows(log.rows, client.user), client, p)
    ensures UserRows(log.rows, client.user)[p].id !in client.delivered
  {
    hide LogOk;
    var all := UserRows(log.rows, client.user);
    if all[p].id in client.delivered {
      var i :| 0 <= i < p && all[i].id == all[p].id;
      UserIdsDiffer(log, client.user, i, p);
    }
  }

  /** Going live from a catch-up that has reached where the buffer begins. */
  lemma SwitchKeeps(log: Log, client: Client, j: nat, p: nat)
    requires LogOk(log) && j <= p <= |UserRows(log.rows, client.user)| && client.pending == UserRows(log.rows, client.user)[j..p]
    requires SentOk(UserRows(log.rows, client.user), client) && j <= client.last && client.delivered == [] && client.alerts == []
    ensures ClientOk(UserRows(log.rows, client.user), Switched(client), j, p)
    ensures Switched(client).last == Max(client.last, p) && Switched(client).base == client.base && Switched(client).user == client.user
    ensures Switched(client).phase.Live?
  {
    hide LogOk, SentOk, SendDurable, DeliveredOk, UserRows, Sorted;
    LogNumbers(log, client.user);
    SortedKeepsOrder(client.pending, SequenceOf);
    var flushing := client.(phase := Live, pending := []);
    RestingSent(UserRows(log.rows, client.user), client, flushing);
    FlushKeeps(log, flushing, j, p);
    var flushed := SendAll(flushing, client.pending, true);
    RestingSent(UserRows(log.rows, client.user), flushed, flushed.(handshake := Some(flushed.last)));
    RestingDelivered(UserRows(log.rows, client.user), flushed, flushed.(handshake := Some(flushed.last)), p);
  }

  /** What a client has received is a matter of its starting point, its cursor and what was sent. */
  lemma RestingSent(all: seq<Row>, client: Client, other: Client)
    requires SentOk(all, client) && other.base == client.base && other.last == client.last && other.sent == client.sent
    ensures SentOk(all, other)
  {
  }

  lemma RestingDelivered(all: seq<Row>, client: Client, other: Client, p: nat)
    requires p <= |all| && DeliveredOk(all, client, p) && other.delivered == client.delivered
    ensures DeliveredOk(all, other, p)
  {
  }

  lemma LogNumbers(log: Log, user: string)
    requires LogOk(log)
    ensures Numbered(UserRows(log.rows, user))
    ensures LatestSequence(log.rows, user) == |UserRows(log.rows, user)|
  {
    UserSequences(log.rows, user);
    assert log.rows[..|log.rows|] == log.rows;
    LatestIsCount(log, |log.rows|, user);
  }

  // ---------------------------------------------------------------------------
  // The invariant, step by step
  // ---------------------------------------------------------------------------

  lemma ConnectedOk(log: Log, passed: nat, user: string, cursor: Option<nat>)
    requires LogOk(log) && passed <= |log.rows|
    ensures WorldOk(Connected(log, passed, user, cursor))
  {
    hide LogOk;
    UserPrefix(log.rows, passed, user);
  }

  lemma CommitKeeps(w: World, change: LogEvent)
    requires WorldOk(w)
    ensures WorldOk(w.(log := LogStep(w.log, change)))
  {
    hide LogOk, ClientOk, LogStep, UserRows;
    var (log, user) := (LogStep(w.log, change), w.client.user);
    CommitAppends(w.log, change);
    var n := |w.log.rows|;
    UserPrefix(log.rows, n, user);
    assert log.rows[..w.joined] == log.rows[..n][..w.joined] && log.rows[..w.passed] == log.rows[..n][..w.passed];
    GrownOk(UserRows(w.log.rows, user), UserRows(log.rows, user), w.client, CountAt(w.log.rows, w.joined, user), CountAt(w.log.rows, w.passed, user));
  }

  lemma CommitAppends(log: Log, change: LogEvent)
    requires LogOk(log)
    ensures |log.rows| <= |LogStep(log, change).rows| && LogStep(log, change).rows[..|log.rows|] == log.rows
    ensures LogOk(LogStep(log, change))
  {
    hide LogOk;
    if change.PublishEvent? && Publish(log, change.draft).Success? { PublishKeepsLog(log, change.draft); }
  }

  lemma GrownOk(all: seq<Row>, more: seq<Row>, client: Client, j: nat, p: nat)
    requires ClientOk(all, client, j, p) && |all| <= |more| && more[..|all|] == all
    ensures ClientOk(more, client, j, p)
  {
    assert forall i :: 0 <= i < |all| ==> more[i] == all[i];
    assert more[j..p] == all[j..p];
    assert Stretch(more, client.base, client.last) == Stretch(all, client.base, client.last);
    if client.phase.Paged? && client.phase.page != [] {
      var (a, b) := (client.last, client.last + |client.phase.page|);
      assert more[a..b] == all[a..b];
    }
  }

  lemma EmitKeeps(w: World)
    requires WorldOk(w) && Enabled(w, Emit)
    ensures WorldOk(Step(w, Emit))
  {
    hide LogOk, UserRows, ClientOk, SendDurable;
    var (user, row) := (w.client.user, w.log.rows[w.passed]);
    NextUserRow(w.log.rows, w.passed, user);
    PushKeepsUser(w.client, row);
    if row.user == user {
      EmittedOk(w.log, w.client, CountAt(w.log.rows, w.joined, user), CountAt(w.log.rows, w.passed, user));
    }
  }

  lemma PushKeepsUser(client: Client, row: Row)
    ensures Push(client, row).user == client.user && (row.user != client.user ==> Push(client, row) == client)
  {
  }

  lemma EmittedOk(log: Log, client: Client, j: nat, p: nat)
    requires LogOk(log) && ClientOk(UserRows(log.rows, client.user), client, j, p) && p < |UserRows(log.rows, client.user)|
    ensures ClientOk(UserRows(log.rows, client.user), Push(client, UserRows(log.rows, client.user)[p]), j, p + 1)
  {
    UserSequences(log.rows, client.user);
    hide LogOk, UserRows, ClientOk, Push;
    if client.phase.Live? {
      assert DeliveredOk(UserRows(log.rows, client.user), client, p) by { LiveMeans(UserRows(log.rows, client.user), client, j, p); }
      FreshId(log, client, p);
      SentLiveOk(UserRows(log.rows, client.user), client, j, p);
    } else {
      BufferedOk(UserRows(log.rows, client.user), client, j, p);
    }
  }

  lemma LiveMeans(all: seq<Row>, client: Client, j: nat, p: nat)
    requires ClientOk(all, client, j, p)
    ensures p <= |all| && DeliveredOk(all, client, p)
  {
  }

  lemma BufferedOk(all: seq<Row>, client: Client, j: nat, p: nat)
    requires ClientOk(all, client, j, p) && p < |all| && all[p].user == client.user && !client.phase.Live?
    ensures ClientOk(all, Push(client, all[p]), j, p + 1)
  {
    hide SendDurable, Select;
    assert all[j..p + 1] == all[j..p] + [all[p]];
    MoreDelivered(all, client, p);
  }

  lemma MoreDelivered(all: seq<Row>, client: Client, p: nat)
    requires p < |all| && DeliveredOk(all, client, p)
    ensures DeliveredOk(all, client, p + 1)
  {
  }

  lemma SentLiveOk(all: seq<Row>, client: Client, j: nat, p: nat)
    requires ClientOk(all, client, j, p) && p < |all| && all[p].user == client.user && client.phase.Live?
    requires Numbered(all) && all[p].id !in client.delivered
    ensures ClientOk(all, Push(client, all[p]), j, p + 1)
  {
    hide SentOk, SendDurable, Numbered, Select, DeliveredOk;
    SendKeeps(all, client, p, true);
    assert all[j..p + 1] == all[j..p] + [all[p]];
    SelectAppend(all[j..p], all[p], Alerting);
    AlsoDelivered(all, client, SendDurable(client, all[p], true), p);
  }

  lemma AlsoDelivered(all: seq<Row>, client: Client, after: Client, p: nat)
    requires p < |all| && DeliveredOk(all, client, p)
    requires forall id :: id in after.delivered ==> id in client.delivered || id == all[p].id
    ensures DeliveredOk(all, after, p + 1)
  {
    forall id | id in after.delivered ensures exists i :: 0 <= i < p + 1 && all[i].id == id {
      assert all[p].id == id || id in client.delivered;
    }
  }

  lemma PageAnsweredKeeps(w: World)
    requires WorldOk(w) && Enabled(w, PageAnswered)
    ensures WorldOk(Step(w, PageAnswered))
  {
    hide ClientOk, UserRows, Page, Counted;
    AnsweredOk(w.log.rows, w.client, CountAt(w.log.rows, w.joined, w.client.user), CountAt(w.log.rows, w.passed, w.client.user));
  }

  lemma AnsweredOk(rows: seq<Row>, client: Client, j: nat, p: nat)
    requires Counted(rows) && ClientOk(UserRows(rows, client.user), client, j, p) && client.phase.Fetching?
    ensures ClientOk(UserRows(rows, client.user), client.(phase := Paged(Page(rows, client.user, client.phase.after, PAGE_LIMIT))), j, p)
  {
    hide SentOk, UserRows, DeliveredOk, Page, Counted;
    var answered := client.(phase := Paged(Page(rows, client.user, client.phase.after, PAGE_LIMIT)));
    PageIsStretch(rows, client.user, client.phase.after, PAGE_LIMIT);
    RestingSent(UserRows(rows, client.user), client, answered);
    RestingDelivered(UserRows(rows, client.user), client, answered, p);
  }

  lemma PageHandledKeeps(w: World)
    requires WorldOk(w) && Enabled(w, PageHandled)
    ensures WorldOk(Step(w, PageHandled))
  {
    hide LogOk, UserRows, ClientOk, HandlePage;
    HandledOk(w.log, w.client, CountAt(w.log.rows, w.joined, w.client.user), CountAt(w.log.rows, w.passed, w.client.user));
  }

  lemma HandledOk(log: Log, client: Client, j: nat, p: nat)
    requires LogOk(log) && ClientOk(UserRows(log.rows, client.user), client, j, p) && client.phase.Paged?
    ensures ClientOk(UserRows(log.rows, client.user), HandlePage(client), j, p) && HandlePage(client).user == client.user
  {
    UserSequences(log.rows, client.user);
    hide LogOk, UserRows, SentOk, SendDurable, Switched, SendAll;
    CaughtUp(UserRows(log.rows, client.user), client, j, p);
    if |client.phase.page| < PAGE_LIMIT { SwitchKeeps(log, SendAll(client, client.phase.page, false), j, p); }
  }

  /** After a page, the client stands at its end. */
  lemma CaughtUp(all: seq<Row>, client: Client, j: nat, p: nat)
    requires Numbered(all) && ClientOk(all, client, j, p) && client.phase.Paged?
    ensures var after := SendAll(client, client.phase.page, false);
            && SentOk(all, after) && after.last == client.last + |client.phase.page|
            && after == client.(last := after.last, sent := after.sent)
    ensures var page := client.phase.page; page != [] ==> page[|page| - 1].sequence == client.last + |page|
  {
    hide SentOk, SendDurable;
    var page := client.phase.page;
    if page != [] { PageKeeps(all, client, |page|); }
  }

  lemma TailAnsweredKeeps(w: World)
    requires WorldOk(w) && Enabled(w, TailAnswered)
    ensures WorldOk(Step(w, TailAnswered))
  {
    hide LogOk, UserRows, LatestSequence, ClientOk;
    LogNumbers(w.log, w.client.user);
    MeasuredOk(UserRows(w.log.rows, w.client.user), w.client, CountAt(w.log.rows, w.joined, w.client.user),
               CountAt(w.log.rows, w.passed, w.client.user));
  }

  lemma MeasuredOk(all: seq<Row>, client: Client, j: nat, p: nat)
    requires ClientOk(all, client, j, p) && client.phase.Measuring?
    ensures ClientOk(all, client.(phase := Polling(|all|)), j, p)
  {
    hide Select;
  }

  /** The buffer begins right behind what the instance had passed at the connection. */
  lemma {:induction false} LowestIsFirst(all: seq<Row>, j: nat, p: nat)
    requires Numbered(all) && j < p <= |all|
    ensures LowestSequence(all[j..p]) == j + 1
    decreases p - j
  {
    if j + 1 < p {
      assert all[j..p][..p - j - 1] == all[j..p - 1];
      LowestIsFirst(all, j, p - 1);
    }
  }

  lemma PollReturnedKeeps(w: World)
    requires WorldOk(w) && Enabled(w, PollReturned)
    ensures WorldOk(Step(w, PollReturned))
    ensures Step(w, PollReturned).client.base ==
            if w.client.pending != [] then CountAt(w.log.rows, w.joined, w.client.user) else w.client.phase.tail
  {
    hide LogOk, UserRows, ClientOk, Switched, StartingPoint;
    var (client, user) := (w.client, w.client.user);
    var (j, p) := (CountAt(w.log.rows, w.joined, user), CountAt(w.log.rows, w.passed, user));
    LogNumbers(w.log, user);
    StartsBehindJoining(UserRows(w.log.rows, user), client, j, p);
    SwitchKeeps(w.log, Rebase(client, StartingPoint(client.phase.tail, client.pending)), j, p);
  }

  lemma StartsBehindJoining(all: seq<Row>, client: Client, j: nat, p: nat)
    requires Numbered(all) && ClientOk(all, client, j, p) && client.phase.Polling?
    ensures j <= p <= |all| && client.delivered == [] && client.alerts == [] && client.pending == all[j..p]
    ensures var start := StartingPoint(client.phase.tail, client.pending);
            && start == (if client.pending != [] then j else client.phase.tail) && j <= start && SentOk(all, Rebase(client, start))
  {
    if j < p { LowestIsFirst(all, j, p); }
  }

  lemma StepKeepsWorld(w: World, e: Event)
    requires WorldOk(w) && Enabled(w, e)
    ensures WorldOk(Step(w, e))
  {
    hide WorldOk, LogStep, Push, HandlePage, Switched, Page;
    match e {
      case Commit(change) => CommitKeeps(w, change);
      case Emit => EmitKeeps(w);
      case PageAnswered => PageAnsweredKeeps(w);
      case PageHandled => PageHandledKeeps(w);
      case TailAnswered => TailAnsweredKeeps(w);
      case PollReturned => PollReturnedKeeps(w);
      case QueryFails => CloseKeeps(w);
      case Disconnect => CloseKeeps(w);
    }
  }

  lemma CloseKeeps(w: World)
    requires WorldOk(w)
    ensures WorldOk(w.(client := w.client.(phase := Closed, pending := [])))
  {
    hide LogOk;
  }

  /** Whatever is committed, emitted and answered in whatever order. */
  lemma {:induction false} EveryConnectionIsOk(start: World, events: seq<Event>)
    requires WorldOk(start)
    ensures WorldOk(After(start, events)) && After(start, events).client.user == start.client.user
  {
    hide WorldOk, Step;
    if events != [] {
      var before := events[..|events| - 1];
      EveryConnectionIsOk(start, before);
      if Enabled(After(start, before), events[|events| - 1]) {
        StepKeepsWorld(After(start, before), events[|events| - 1]);
        StepKeepsUser(After(start, before), events[|events| - 1]);
      }
    }
  }

  lemma {:induction false} SendingKeepsUser(client: Client, rows: seq<Row>, live: bool)
    ensures SendAll(client, rows, live).(last := client.last, sent := client.sent, alerts := client.alerts, delivered := client.delivered) == client
  {
    if rows != [] { SendingKeepsUser(client, rows[..|rows| - 1], live); }
  }

  lemma SwitchingKeepsUser(client: Client)
    ensures Switched(client).user == client.user && Switched(client).base == client.base
  {
    SendingKeepsUser(client.(phase := Live, pending := []), Sorted(client.pending, SequenceOf), true);
  }

  lemma StepKeepsUser(w: World, e: Event)
    requires Enabled(w, e)
    ensures Step(w, e).client.user == w.client.user
  {
    hide Switched, SendAll;
    if e.PageHandled? {
      SendingKeepsUser(w.client, w.client.phase.page, false);
      SwitchingKeepsUser(SendAll(w.client, w.client.phase.page, false));
    } else if e.PollReturned? {
      SwitchingKeepsUser(Rebase(w.client, StartingPoint(w.client.phase.tail, w.client.pending)));
    }
  }

  lemma {:induction false} LogOnlyGrows(start: World, events: seq<Event>)
    requires WorldOk(start)
    ensures var rows := After(start, events).log.rows; |start.log.rows| <= |rows| && rows[..|start.log.rows|] == start.log.rows
  {
    hide WorldOk, Switched, SendAll, LogStep, SendDurable, Page;
    if events != [] {
      var w := After(start, events[..|events| - 1]);
      LogOnlyGrows(start, events[..|events| - 1]);
      EveryConnectionIsOk(start, events[..|events| - 1]);
      var e := events[|events| - 1];
      if e.Commit? {
        assert LogOk(w.log) by { WorldHasLog(w); }
        CommitAppends(w.log, e.change);
        var n := |start.log.rows|;
        var after := LogStep(w.log, e.change).rows;
        assert after[..n] == after[..|w.log.rows|][..n];
      }
    }
  }

  lemma WorldHasLog(w: World)
    requires WorldOk(w)
    ensures LogOk(w.log)
  {
  }

  /** A client that brought a cursor starts from it, whatever happens. */
  lemma {:induction false} CursorStays(log: Log, passed: nat, user: string, cursor: nat, events: seq<Event>)
    ensures var client := After(Connected(log, passed, user, Some(cursor)), events).client;
            client.base == cursor && !client.phase.Measuring? && !client.phase.Polling?
  {
    hide Switched, SendAll, LogStep, SendDurable;
    if events != [] {
      CursorStays(log, passed, user, cursor, events[..|events| - 1]);
      var w := After(Connected(log, passed, user, Some(cursor)), events[..|events| - 1]);
      var e := events[|events| - 1];
      if Enabled(w, e) {
        if e.PageHandled? {
          SendingKeepsUser(w.client, w.client.phase.page, false);
          SwitchingKeepsUser(SendAll(w.client, w.client.phase.page, false));
          SwitchingGoesLive(SendAll(w.client, w.client.phase.page, false));
        } else if e.Emit? {
          SendingOneKeeps(w.client, w.log.rows[w.passed], true);
        }
      }
    }
  }

  lemma SwitchingGoesLive(client: Client)
    ensures Switched(client).phase.Live?
  {
    SendingKeepsUser(client.(phase := Live, pending := []), Sorted(client.pending, SequenceOf), true);
  }

  lemma SendingOneKeeps(client: Client, row: Row, live: bool)
    ensures SendDurable(client, row, live).(last := client.last, sent := client.sent, alerts := client.alerts, delivered := client.delivered) == client
  {
  }

  /**
   Reconnecting: whatever is committed, polled and answered meanwhile, a client with a cursor has been
   sent exactly the replayable events after its cursor up to where it stands, each once and in order;
   and once it is live it stands no earlier than what its instance has emitted.
   */
  lemma ClientReceivesEveryEvent(log: Log, passed: nat, user: string, cursor: nat, events: seq<Event>)
    requires LogOk(log) && passed <= |log.rows|
    ensures var w := After(Connected(log, passed, user, Some(cursor)), events); var all := UserRows(w.log.rows, user);
            && cursor <= w.client.last && (cursor < w.client.last ==> w.client.last <= |all|)
            && w.client.sent == Select(Stretch(all, cursor, w.client.last), Replayed)
            && w.passed <= |w.log.rows| && (w.client.phase.Live? ==> CountAt(w.log.rows, w.passed, user) <= w.client.last)
  {
    hide LogOk, UserRows, After;
    ConnectedOk(log, passed, user, Some(cursor));
    EveryConnectionIsOk(Connected(log, passed, user, Some(cursor)), events);
    CursorStays(log, passed, user, cursor, events);
  }

  /** Alerts are never replayed: a live client has been sent each one its instance emitted since the connection, once and in order. */
  lemma AlertsAreLiveOnly(log: Log, passed: nat, user: string, cursor: Option<nat>, events: seq<Event>)
    requires LogOk(log) && passed <= |log.rows|
    ensures var w := After(Connected(log, passed, user, cursor), events);
            w.client.phase.Live? ==>
              && w.joined <= w.passed <= |w.log.rows|
              && var (j, p) := (CountAt(w.log.rows, w.joined, user), CountAt(w.log.rows, w.passed, user));
              && j <= p <= |UserRows(w.log.rows, user)|
              && w.client.alerts == Select(UserRows(w.log.rows, user)[j..p], Alerting)
  {
    hide LogOk, UserRows, After;
    ConnectedOk(log, passed, user, cursor);
    EveryConnectionIsOk(Connected(log, passed, user, cursor), events);
  }

  /**
   A client without a cursor is to receive every event its instance emits from the connection on. It
   starts exactly there if and only if something was buffered when its poll returned, or nothing had
   been committed beyond what the instance had passed.
   */
  lemma NewClientMissesNothingIff(log: Log, passed: nat, user: string, events: seq<Event>)
    requires LogOk(log) && passed <= |log.rows|
    requires After(Connected(log, passed, user, None), events).client.phase.Polling?
    ensures var w := After(Connected(log, passed, user, None), events);
            && w.joined <= |w.log.rows|
            && var j := CountAt(w.log.rows, w.joined, user);
            && j <= Step(w, PollReturned).client.base
            && (Step(w, PollReturned).client.base == j <==> w.client.pending != [] || w.client.phase.tail == j)
  {
    hide LogOk, UserRows, After, Step;
    ConnectedOk(log, passed, user, None);
    EveryConnectionIsOk(Connected(log, passed, user, None), events);
    PollReturnedKeeps(After(Connected(log, passed, user, None), events));
  }

  const LATE := Draft(1, "user", None, OrderUpdate, "order")
  const LATE_ROW := Row(1, 1, "user", 1, None, OrderUpdate, "order")

  /** The other case is real: an order committed after the connection, counted by the tail and not yet emitted when the poll returns, is never sent. */
  lemma NewClientSkipsCountedEvent()
    ensures var w := After(Connected(EMPTY, 0, "user", None), [Commit(PublishEvent(LATE)), TailAnswered, PollReturned, Emit]);
            w.log.rows == [LATE_ROW] && w.passed == 1 && w.client.phase.Live? && w.client.sent == []
  {
    var start := Connected(EMPTY, 0, "user", None);
    var log := Log(2, [LATE_ROW]);
    assert EMPTY.rows + [LATE_ROW] == log.rows;
    assert NewRow(EMPTY, LATE) == LATE_ROW;
    assert !Conflicts(EMPTY.rows, LATE_ROW);
    assert LogStep(EMPTY, PublishEvent(LATE)) == log;
    var w1 := start.(log := log);
    assert LatestSequence(log.rows, "user") == 1;
    var w2 := w1.(client := w1.client.(phase := Polling(1)));
    var w3 := w1.(client := w1.client.(phase := Live, base := 1, last := 1, handshake := Some(1)));
    assert Step(w2, PollReturned) == w3;
    var steps := [Commit(PublishEvent(LATE)), TailAnswered, PollReturned, Emit];
    AfterOne(start, steps, 0, start, w1);
    AfterOne(start, steps, 1, w1, w2);
    AfterOne(start, steps, 2, w2, w3);
    AfterOne(start, steps, 3, w3, w3.(passed := 1));
    assert steps[..4] == steps;
  }

  lemma AfterOne(start: World, steps: seq<Event>, i: nat, before: World, w: World)
    requires i < |steps| && After(start, steps[..i]) == before && Enabled(before, steps[i]) && Step(before, steps[i]) == w
    ensures After(start, steps[..i + 1]) == w
  {
    assert steps[..i + 1][..i] == steps[..i];
  }
}
