/**
 The durable event log. The allocator row is locked until commit, so publishing is one step at a
 time and rows are kept in commit order.
 */
module EventLog {
  import opened Wrappers

  type EventId = nat

  datatype Kind = OrderUpdate | ChartOrder | IvAlert | IvAlertConfiguration

  datatype Row = Row(ordinal: nat, id: EventId, user: string, sequence: nat, dedupeKey: Option<string>, kind: Kind, payload: string)

  datatype Log = Log(nextOrdinal: nat, rows: seq<Row>)

  datatype Draft = Draft(id: EventId, user: string, dedupeKey: Option<string>, kind: Kind, payload: string)

  datatype PublishError = UniqueViolation

  const EMPTY := Log(1, [])

  function UserRows(rows: seq<Row>, user: string): seq<Row> {
    if rows == [] then []
    else
      var before := UserRows(rows[..|rows| - 1], user);
      if rows[|rows| - 1].user == user then before + [rows[|rows| - 1]] else before
  }

  /** The highest sequence the user has, zero without any event. */
  function LatestSequence(rows: seq<Row>, user: string): nat {
    if rows == [] then 0
    else
      var before := LatestSequence(rows[..|rows| - 1], user);
      var last := rows[|rows| - 1];
      if last.user == user && last.sequence > before then last.sequence else before
  }

  predicate HasKey(row: Row, user: string, key: string) {
    row.user == user && row.dedupeKey == Some(key)
  }

  /** Index of the row holding the key, when there is one. */
  function FindKey(rows: seq<Row>, user: string, key: string): Option<nat> {
    if rows == [] then None
    else
      var before := FindKey(rows[..|rows| - 1], user, key);
      if before.Some? then before else if HasKey(rows[|rows| - 1], user, key) then Some(|rows| - 1) else None
  }

  /** A dedupe key that is absent or empty is not looked up. */
  function Repeated(log: Log, draft: Draft): Option<nat> {
    if draft.dedupeKey.Some? && draft.dedupeKey.value != "" then FindKey(log.rows, draft.user, draft.dedupeKey.value) else None
  }

  function NewRow(log: Log, draft: Draft): Row {
    Row(log.nextOrdinal, draft.id, draft.user, LatestSequence(log.rows, draft.user) + 1, draft.dedupeKey, draft.kind, draft.payload)
  }

  predicate Conflicts(rows: seq<Row>, row: Row) {
    exists i :: 0 <= i < |rows| &&
      (rows[i].id == row.id || (row.dedupeKey.Some? && HasKey(rows[i], row.user, row.dedupeKey.value)))
  }

  function Publish(log: Log, draft: Draft): Result<(Log, Row), PublishError>
    ensures Publish(log, draft).Success? && Repeated(log, draft).None? ==>
              Publish(log, draft).value.0.rows == log.rows + [Publish(log, draft).value.1]
  {
    FindKeyInRange(log.rows, draft.user, if draft.dedupeKey.Some? then draft.dedupeKey.value else "");
    var repeated := Repeated(log, draft);
    if repeated.Some? then Success((log.(nextOrdinal := log.nextOrdinal + 1), log.rows[repeated.value]))
    else if Conflicts(log.rows, NewRow(log, draft)) then Failure(UniqueViolation)
    else Success((Log(log.nextOrdinal + 1, log.rows + [NewRow(log, draft)]), NewRow(log, draft)))
  }

  lemma FindKeyInRange(rows: seq<Row>, user: string, key: string)
    ensures var found := FindKey(rows, user, key);
            && (found.Some? ==> found.value < |rows| && HasKey(rows[found.value], user, key))
            && (found.None? ==> forall i :: 0 <= i < |rows| ==> !HasKey(rows[i], user, key))
  {
    if rows != [] { FindKeyInRange(rows[..|rows| - 1], user, key); }
  }

  class EventTable {
    var nextOrdinal: nat
    var rows: seq<Row>

    constructor ()
      ensures Contents() == EMPTY
    {
      nextOrdinal, rows := 1, [];
    }

    function Contents(): Log
      reads this
    {
      Log(nextOrdinal, rows)
    }

    method FindRepeated(user: string, key: string) returns (found: Option<nat>)
      ensures found == FindKey(rows, user, key)
    {
      FindKeyInRange(rows, user, key);
      var i := 0;
      while i < |rows|
        invariant i <= |rows| && FindKey(rows[..i], user, key).None?
      {
        assert rows[..i + 1][..i] == rows[..i];
        if HasKey(rows[i], user, key) {
          FindKeyGrows(rows, i + 1, user, key);
          return Some(i);
        }
        i := i + 1;
      }
      assert rows[..i] == rows;
      found := None;
    }

    method LatestOf(user: string) returns (latest: nat)
      ensures latest == LatestSequence(rows, user)
    {
      latest := 0;
      for i := 0 to |rows|
        invariant latest == LatestSequence(rows[..i], user)
      {
        assert rows[..i + 1][..i] == rows[..i];
        if rows[i].user == user && rows[i].sequence > latest {
          latest := rows[i].sequence;
        }
      }
      assert rows[..|rows|] == rows;
    }

    /** One publishing transaction; a violated unique index rolls the allocator back too. */
    method PublishInTransaction(draft: Draft) returns (result: Result<Row, PublishError>)
      modifies this
      ensures match Publish(old(Contents()), draft)
              case Success(published) => Contents() == published.0 && result == Success(published.1)
              case Failure(error) => Contents() == old(Contents()) && result == Failure(error)
    {
      hide FindKey, LatestSequence, Conflicts;
      var before := nextOrdinal;
      nextOrdinal := nextOrdinal + 1;
      if draft.dedupeKey.Some? && draft.dedupeKey.value != "" {
        FindKeyInRange(rows, draft.user, draft.dedupeKey.value);
        var existing := FindRepeated(draft.user, draft.dedupeKey.value);
        if existing.Some? { return Success(rows[existing.value]); }
      }
      var latest := LatestOf(draft.user);
      var row := Row(nextOrdinal - 1, draft.id, draft.user, latest + 1, draft.dedupeKey, draft.kind, draft.payload);
      if Conflicts(rows, row) {
        nextOrdinal := before;
        return Failure(UniqueViolation);
      }
      rows := rows + [row];
      result := Success(row);
    }

    /** One page of a user's events after a cursor, in sequence order. */
    method Replay(user: string, afterSequence: int, limit: nat) returns (page: seq<Row>)
      requires LogOk(Contents())
      ensures page == Page(rows, user, afterSequence, limit)
    {
      var start := if afterSequence > 0 then afterSequence else 0;
      page := [];
      for i := 0 to |rows|
        invariant page == Page(rows[..i], user, afterSequence, limit)
      {
        PageStep(rows, i, user, afterSequence, limit);
        if rows[i].user == user && rows[i].sequence > start && |page| < limit {
          page := page + [rows[i]];
        }
      }
      assert rows[..|rows|] == rows;
    }

  }

  lemma FindKeyGrows(rows: seq<Row>, i: nat, user: string, key: string)
    requires i <= |rows| && FindKey(rows[..i], user, key).Some?
    ensures FindKey(rows, user, key) == FindKey(rows[..i], user, key)
    decreases |rows|
  {
    if i < |rows| {
      assert rows[..|rows| - 1][..i] == rows[..i];
      FindKeyGrows(rows[..|rows| - 1], i, user, key);
    } else {
      assert rows[..i] == rows;
    }
  }

  // ---------------------------------------------------------------------------
  // What the log keeps
  // ---------------------------------------------------------------------------

  /** Every row's sequence is one more than the number of its user's rows before it. */
  ghost predicate Counted(rows: seq<Row>) {
    forall i :: 0 <= i < |rows| ==> rows[i].sequence == |UserRows(rows[..i], rows[i].user)| + 1
  }

  lemma CountedPrefix(rows: seq<Row>, n: nat)
    requires Counted(rows) && n <= |rows|
    ensures Counted(rows[..n])
  {
    forall i | 0 <= i < n ensures rows[..n][..i] == rows[..i] { }
  }

  predicate SameKey(a: Row, b: Row) {
    a.user == b.user && a.dedupeKey.Some? && a.dedupeKey == b.dedupeKey
  }

  /** Ordinals ascend in commit order, each user counts 1, 2, 3, and ids and dedupe keys are used once. */
  ghost predicate LogOk(log: Log) {
    && 1 <= log.nextOrdinal
    && (forall i :: 0 <= i < |log.rows| ==> 1 <= log.rows[i].ordinal < log.nextOrdinal)
    && (forall i, j :: 0 <= i < j < |log.rows| ==> log.rows[i].ordinal < log.rows[j].ordinal)
    && (forall i, j :: 0 <= i < j < |log.rows| ==> log.rows[i].id != log.rows[j].id)
    && Counted(log.rows)
    && (forall i, j :: 0 <= i < j < |log.rows| ==> !SameKey(log.rows[i], log.rows[j]))
  }

  lemma {:induction false} LatestIsCount(log: Log, n: nat, user: string)
    requires LogOk(log) && n <= |log.rows|
    ensures LatestSequence(log.rows[..n], user) == |UserRows(log.rows[..n], user)|
  {
    if n > 0 {
      assert log.rows[..n][..n - 1] == log.rows[..n - 1];
      LatestIsCount(log, n - 1, user);
    }
  }

  lemma PublishKeepsLog(log: Log, draft: Draft)
    requires LogOk(log) && Publish(log, draft).Success?
    ensures LogOk(Publish(log, draft).value.0)
  {
    hide Counted, UserRows, LatestSequence;
    if Repeated(log, draft).None? {
      var row := NewRow(log, draft);
      forall i | 0 <= i < |log.rows|
        ensures log.rows[i].id != row.id && !SameKey(log.rows[i], row)
      {
        assert (log.rows[i].id == row.id || SameKey(log.rows[i], row)) ==> Conflicts(log.rows, row);
      }
      NewRowCounts(log, draft);
    }
  }

  lemma NewRowCounts(log: Log, draft: Draft)
    requires LogOk(log)
    ensures Counted(log.rows + [NewRow(log, draft)])
  {
    NewSequence(log, draft);
    var rows := log.rows + [NewRow(log, draft)];
    forall i | 0 <= i < |rows|
      ensures rows[i].sequence == |UserRows(rows[..i], rows[i].user)| + 1
    {
      assert i < |log.rows| ==> rows[..i] == log.rows[..i];
      assert i == |log.rows| ==> rows[..i] == log.rows;
    }
  }

  lemma NewSequence(log: Log, draft: Draft)
    requires LogOk(log)
    ensures NewRow(log, draft).sequence == |UserRows(log.rows, draft.user)| + 1
  {
    assert log.rows[..|log.rows|] == log.rows;
    LatestIsCount(log, |log.rows|, draft.user);
  }

  /** A repeated key answers with the first row that used it, and adds nothing. */
  lemma RepeatedKeyReturnsFirstRow(log: Log, draft: Draft, i: nat)
    requires LogOk(log) && i < |log.rows| && draft.dedupeKey.Some? && draft.dedupeKey.value != ""
    requires HasKey(log.rows[i], draft.user, draft.dedupeKey.value)
    ensures Publish(log, draft).Success? && Publish(log, draft).value.1 == log.rows[i]
    ensures Publish(log, draft).value.0.rows == log.rows
  {
    var key := draft.dedupeKey.value;
    FindKeyInRange(log.rows, draft.user, key);
    var k := FindKey(log.rows, draft.user, key).value;
    assert SameKey(log.rows[i], log.rows[k]) && SameKey(log.rows[k], log.rows[i]);
  }

  /** A row of this user already carries this key. */
  ghost predicate KeyTaken(log: Log, user: string, key: Option<string>) {
    key.Some? && exists i :: 0 <= i < |log.rows| && log.rows[i].user == user && log.rows[i].dedupeKey == key
  }

  /**
   What publishing a draft comes to. A non-empty key that is taken answers with a row that has it and adds
   none. Otherwise the draft is stored behind everything else, as it is, under the next ordinal and the
   user's next number, unless its id, or an empty key of its, is already there.
   */
  lemma PublishMeans(log: Log, draft: Draft)
    requires LogOk(log)
    ensures var result := Publish(log, draft);
            var repeated := draft.dedupeKey != Some("") && KeyTaken(log, draft.user, draft.dedupeKey);
            var clash := (exists i :: 0 <= i < |log.rows| && log.rows[i].id == draft.id) || KeyTaken(log, draft.user, draft.dedupeKey);
            && (result.Success? <==> repeated || !clash)
            && (result.Success? ==> result.value.0.nextOrdinal == log.nextOrdinal + 1)
            && (repeated ==> result.value.0.rows == log.rows && result.value.1 in log.rows
                             && result.value.1.user == draft.user && result.value.1.dedupeKey == draft.dedupeKey)
            && (result.Success? && !repeated ==>
                  var row := result.value.1;
                  && result.value.0.rows == log.rows + [row]
                  && row.ordinal == log.nextOrdinal && row.sequence == |UserRows(log.rows, draft.user)| + 1
                  && row.id == draft.id && row.user == draft.user && row.dedupeKey == draft.dedupeKey
                  && row.kind == draft.kind && row.payload == draft.payload)
  {
    FindKeyInRange(log.rows, draft.user, if draft.dedupeKey.Some? then draft.dedupeKey.value else "");
    NewSequence(log, draft);
    hide FindKey, LatestSequence, UserRows, LogOk;
    if Publish(log, draft).Failure? { ClashMeans(log, draft); } else if Repeated(log, draft).None? { ClashMeans(log, draft); }
  }

  lemma ClashMeans(log: Log, draft: Draft)
    ensures Conflicts(log.rows, NewRow(log, draft)) <==>
            (exists i :: 0 <= i < |log.rows| && log.rows[i].id == draft.id) || KeyTaken(log, draft.user, draft.dedupeKey)
  {
    hide LatestSequence;
    if i :| 0 <= i < |log.rows| && log.rows[i].id == draft.id {
      assert log.rows[i].id == NewRow(log, draft).id;
    } else if KeyTaken(log, draft.user, draft.dedupeKey) {
      var i :| 0 <= i < |log.rows| && log.rows[i].user == draft.user && log.rows[i].dedupeKey == draft.dedupeKey;
      assert HasKey(log.rows[i], draft.user, draft.dedupeKey.value);
    }
  }

  /** A user's sequences are 1, 2, up to the number of its events, with no gap. */
  lemma {:induction false} UserSequences(rows: seq<Row>, user: string)
    requires Counted(rows)
    ensures forall k :: 0 <= k < |UserRows(rows, user)| ==>
              UserRows(rows, user)[k].sequence == k + 1 && UserRows(rows, user)[k].user == user
  {
    if rows != [] {
      var n := |rows| - 1;
      CountedPrefix(rows, n);
      UserSequences(rows[..n], user);
    }
  }

  datatype LogEvent = PublishEvent(draft: Draft) | RollBack

  function LogStep(log: Log, e: LogEvent): Log {
    if e.RollBack? || Publish(log, e.draft).Failure? then log else Publish(log, e.draft).value.0
  }

  function LogAfter(events: seq<LogEvent>): Log {
    if events == [] then EMPTY else LogStep(LogAfter(events[..|events| - 1]), events[|events| - 1])
  }

  /** Whatever was published, deduplicated, refused or rolled back. */
  lemma {:induction false} EveryLogIsOk(events: seq<LogEvent>)
    ensures LogOk(LogAfter(events))
  {
    if events != [] {
      EveryLogIsOk(events[..|events| - 1]);
      var (log, e) := (LogAfter(events[..|events| - 1]), events[|events| - 1]);
      if e.PublishEvent? && Publish(log, e.draft).Success? { PublishKeepsLog(log, e.draft); }
    }
  }

  /** The latest sequence is one a row of the user has and none of them exceeds, zero without rows. */
  lemma {:induction false} LatestMeans(rows: seq<Row>, user: string)
    ensures forall row :: row in rows && row.user == user ==> row.sequence <= LatestSequence(rows, user)
    ensures LatestSequence(rows, user) == 0 || exists row :: row in rows && row.user == user && row.sequence == LatestSequence(rows, user)
  {
    if rows != [] {
      var n := |rows| - 1;
      LatestMeans(rows[..n], user);
      assert rows == rows[..n] + [rows[n]];
    }
  }

  /** Whatever is published later or rolled back, a row once returned to a publisher stays in the log, and rows keep their places. */
  lemma {:induction false} PublishedRowStays(events: seq<LogEvent>, i: nat)
    requires i < |events| && events[i].PublishEvent? && Publish(LogAfter(events[..i]), events[i].draft).Success?
    ensures LogAfter(events[..i + 1]).rows <= LogAfter(events).rows
    ensures Publish(LogAfter(events[..i]), events[i].draft).value.1 in LogAfter(events).rows
    decreases |events|
  {
    var n := |events| - 1;
    var (log, e) := (LogAfter(events[..n]), events[n]);
    RowsOnlyGrow(log, e);
    assert events[..|events|] == events;
    if i < n {
      assert events[..n][..i] == events[..i] && events[..n][..i + 1] == events[..i + 1];
      PublishedRowStays(events[..n], i);
    }
  }

  lemma RowsOnlyGrow(log: Log, e: LogEvent)
    ensures log.rows <= LogStep(log, e).rows
    ensures e.PublishEvent? && Publish(log, e.draft).Success? ==> Publish(log, e.draft).value.1 in LogStep(log, e).rows
  {
    hide LatestSequence, FindKey, Conflicts;
    if e.PublishEvent? { FindKeyInRange(log.rows, e.draft.user, if e.draft.dedupeKey.Some? then e.draft.dedupeKey.value else ""); }
  }

  // ---------------------------------------------------------------------------
  // Replay
  // ---------------------------------------------------------------------------

  /** A user's events after a cursor: exactly what a client at that cursor has not seen. */
  function Missing(rows: seq<Row>, user: string, cursor: nat): seq<Row> {
    var all := UserRows(rows, user);
    if cursor < |all| then all[cursor..] else []
  }

  /** The first limit rows, in commit order, of the user with a sequence above the cursor. */
  function Page(rows: seq<Row>, user: string, afterSequence: int, limit: nat): seq<Row> {
    if rows == [] then []
    else
      var before := Page(rows[..|rows| - 1], user, afterSequence, limit);
      var last := rows[|rows| - 1];
      var start := if afterSequence > 0 then afterSequence else 0;
      if last.user == user && last.sequence > start && |before| < limit then before + [last] else before
  }

  lemma PageStep(rows: seq<Row>, i: nat, user: string, afterSequence: int, limit: nat)
    requires i < |rows|
    ensures var start := if afterSequence > 0 then afterSequence else 0;
            var before := Page(rows[..i], user, afterSequence, limit);
            Page(rows[..i + 1], user, afterSequence, limit) ==
            if rows[i].user == user && rows[i].sequence > start && |before| < limit then before + [rows[i]] else before
  {
    assert rows[..i + 1][..i] == rows[..i];
  }

  /** A page is the next stretch of the missing run. */
  lemma {:induction false} PageIsStretch(rows: seq<Row>, user: string, after: nat, limit: nat)
    requires Counted(rows)
    ensures var missing := Missing(rows, user, after);
            Page(rows, user, after, limit) == missing[..if |missing| < limit then |missing| else limit]
  {
    if rows != [] {
      var n := |rows| - 1;
      CountedPrefix(rows, n);
      PageIsStretch(rows[..n], user, after, limit);
      assert rows[..n] == rows[..|rows| - 1];
    }
  }}
