/**
 One poller per server instance over the durable log: it reads the log in chunks above its last
 ordinal, drops ids it still remembers, and emits the rest. Polls are coalesced: a request that
 finds a poll running asks it for one more round.
 */
module EventPoller {
  import opened EventLog

  const CHUNK := 500
  const SEEN_LIMIT := 2048

  /** What an instance remembers, with everything it has emitted so far. */
  datatype Poller = Poller(last: nat, seen: set<EventId>, order: seq<EventId>, emitted: seq<Row>)

  function Emit(p: Poller, row: Row): Poller {
    if row.id in p.seen then p
    else
      var order := p.order + [row.id];
      if |order| > SEEN_LIMIT
      then Poller(p.last, p.seen + {row.id} - {order[0]}, order[1..], p.emitted + [row])
      else Poller(p.last, p.seen + {row.id}, order, p.emitted + [row])
  }

  function Take(p: Poller, row: Row): Poller {
    Emit(if row.ordinal > p.last then p.(last := row.ordinal) else p, row)
  }

  function TakeAll(p: Poller, rows: seq<Row>): Poller {
    if rows == [] then p else Take(TakeAll(p, rows[..|rows| - 1]), rows[|rows| - 1])
  }

  /** The rows above an ordinal, in commit order. */
  function Above(rows: seq<Row>, ordinal: nat): seq<Row> {
    if rows == [] then []
    else
      var before := Above(rows[..|rows| - 1], ordinal);
      if rows[|rows| - 1].ordinal > ordinal then before + [rows[|rows| - 1]] else before
  }

  function Query(rows: seq<Row>, ordinal: nat): seq<Row> {
    var above := Above(rows, ordinal);
    if |above| <= CHUNK then above else above[..CHUNK]
  }

  function Ids(rows: seq<Row>): (ids: seq<EventId>)
    ensures |ids| == |rows| && forall i :: 0 <= i < |rows| ==> ids[i] == rows[i].id
  {
    seq(|rows|, i requires 0 <= i < |rows| => rows[i].id)
  }

  // ---------------------------------------------------------------------------
  // An instance never skips and never repeats
  // ---------------------------------------------------------------------------

  /** The position right after the rows already emitted. */
  function Next(p: Poller, first: nat): nat { first + |p.emitted| }

  /** The instance has emitted exactly the rows from its first position up to its last ordinal. */
  ghost predicate Follows(p: Poller, rows: seq<Row>, first: nat) {
    && Next(p, first) <= |rows|
    && p.emitted == rows[first..Next(p, first)]
    && (forall i :: 0 <= i < Next(p, first) ==> rows[i].ordinal <= p.last)
    && (forall i :: Next(p, first) <= i < |rows| ==> rows[i].ordinal > p.last)
    && Remembers(p)
  }

  /** The remembered ids are those of the latest 2048 emitted events, and the set agrees with the queue. */
  ghost predicate Remembers(p: Poller) {
    && |p.order| == (if |p.emitted| < 2048 then |p.emitted| else 2048)
    && p.order == Ids(p.emitted)[|p.emitted| - |p.order|..]
    && (forall id :: id in p.seen <==> id in p.order)
  }

  /** In an ordered log the rows above an ordinal are the tail after it. */
  lemma {:induction false} AboveIsTail(rows: seq<Row>, n: nat, ordinal: nat)
    requires n <= |rows|
    requires forall i :: 0 <= i < n ==> rows[i].ordinal <= ordinal
    requires forall i :: n <= i < |rows| ==> rows[i].ordinal > ordinal
    ensures Above(rows, ordinal) == rows[n..]
  {
    if rows == [] {
    } else if n == |rows| {
      AboveIsTail(rows[..|rows| - 1], n - 1, ordinal);
    } else {
      AboveIsTail(rows[..|rows| - 1], n, ordinal);
      assert rows[..|rows| - 1][n..] + [rows[|rows| - 1]] == rows[n..];
    }
  }

  lemma RememberedWasEmitted(p: Poller, id: EventId)
    requires Remembers(p) && id in p.seen
    ensures exists i :: 0 <= i < |p.emitted| && p.emitted[i].id == id
  {
    var k :| 0 <= k < |p.order| && p.order[k] == id;
    assert p.emitted[|p.emitted| - |p.order| + k].id == id;
  }

  lemma EmitRemembers(p: Poller, row: Row)
    requires Remembers(p) && (forall i :: 0 <= i < |p.emitted| ==> p.emitted[i].id != row.id)
    requires forall i, j :: 0 <= i < j < |p.emitted| ==> p.emitted[i].id != p.emitted[j].id
    ensures Emit(p, row).emitted == p.emitted + [row] && Remembers(Emit(p, row))
  {
    if row.id in p.seen { RememberedWasEmitted(p, row.id); }
    var order := p.order + [row.id];
    var ids := Ids(p.emitted + [row]);
    assert ids == Ids(p.emitted) + [row.id];
    assert order == ids[|ids| - |order|..];
    if |order| > SEEN_LIMIT {
      forall k | 1 <= k < |order| ensures order[k] != order[0] { NoIdTwice(p, row, k); }
      DropFirst(p.seen + {row.id}, order);
    }
  }

  lemma NoIdTwice(p: Poller, row: Row, k: nat)
    requires Remembers(p) && (forall i :: 0 <= i < |p.emitted| ==> p.emitted[i].id != row.id)
    requires forall i, j :: 0 <= i < j < |p.emitted| ==> p.emitted[i].id != p.emitted[j].id
    requires 1 <= k <= |p.order|
    ensures (p.order + [row.id])[k] != p.order[0]
  {
    var start := |p.emitted| - |p.order|;
    assert p.order[0] == p.emitted[start].id;
    assert k < |p.order| ==> p.order[k] == p.emitted[start + k].id;
  }

  lemma DropFirst(seen: set<EventId>, order: seq<EventId>)
    requires |order| > 0 && (forall id :: id in seen <==> id in order)
    requires forall k :: 1 <= k < |order| ==> order[k] != order[0]
    ensures forall id :: id in seen - {order[0]} <==> id in order[1..]
  {
    assert order == [order[0]] + order[1..];
  }

  /** The next row of the log is always emitted: its id cannot be a remembered one. */
  lemma TakeFollows(p: Poller, log: Log, first: nat)
    requires LogOk(log) && Follows(p, log.rows, first) && Next(p, first) < |log.rows|
    ensures Follows(Take(p, log.rows[Next(p, first)]), log.rows, first)
    ensures Next(Take(p, log.rows[Next(p, first)]), first) == Next(p, first) + 1
  {
    hide LogOk, Ids, Remembers, Emit;
    var n := Next(p, first);
    var row := log.rows[n];
    var q := p.(last := row.ordinal);
    MemoryOnly(p, row.ordinal);
    IdsDiffer(log, first, n);
    OrdinalsAscend(log, n);
    EmitRemembers(q, row);
    EmitKeepsLast(q, row);
    assert log.rows[first..n] + [row] == log.rows[first..n + 1];
  }

  lemma IdsDiffer(log: Log, first: nat, n: nat)
    requires LogOk(log) && first <= n < |log.rows|
    ensures var emitted := log.rows[first..n];
            && (forall i :: 0 <= i < |emitted| ==> emitted[i].id != log.rows[n].id)
            && (forall i, j :: 0 <= i < j < |emitted| ==> emitted[i].id != emitted[j].id)
  {
    hide Counted, SameKey;
  }

  lemma OrdinalsAscend(log: Log, n: nat)
    requires LogOk(log) && n < |log.rows|
    ensures forall i :: 0 <= i < n ==> log.rows[i].ordinal <= log.rows[n].ordinal
    ensures forall i :: n < i < |log.rows| ==> log.rows[n].ordinal < log.rows[i].ordinal
  {
    hide Counted, SameKey;
  }

  lemma MemoryOnly(p: Poller, last: nat)
    requires Remembers(p)
    ensures Remembers(p.(last := last))
  {
  }

  lemma EmitKeepsLast(p: Poller, row: Row)
    ensures Emit(p, row).last == p.last
  {
  }

  lemma {:induction false} TakeAllFollows(p: Poller, log: Log, first: nat, k: nat)
    requires LogOk(log) && Follows(p, log.rows, first) && Next(p, first) + k <= |log.rows|
    ensures var q := TakeAll(p, log.rows[Next(p, first)..Next(p, first) + k]);
            Follows(q, log.rows, first) && Next(q, first) == Next(p, first) + k
  {
    hide LogOk, Follows;
    var n := Next(p, first);
    if k > 0 {
      TakeAllFollows(p, log, first, k - 1);
      assert log.rows[n..n + k][..k - 1] == log.rows[n..n + k - 1];
      TakeFollows(TakeAll(p, log.rows[n..n + k - 1]), log, first);
    } else {
      assert log.rows[n..n] == [];
    }
  }

  /** A row raises the last ordinal to its own, never lowers it, and goes out unless its id is still remembered. */
  lemma TakeMeans(p: Poller, row: Row)
    ensures Take(p, row).last == if row.ordinal <= p.last then p.last else row.ordinal
    ensures Take(p, row).emitted == if row.id in p.seen then p.emitted else p.emitted + [row]
    ensures row.id in p.seen ==> Take(p, row).seen == p.seen && Take(p, row).order == p.order
  {
  }

  /** A query answers with the next rows above the last ordinal, five hundred at most. */
  lemma QueryIsStretch(p: Poller, rows: seq<Row>, first: nat)
    requires Follows(p, rows, first)
    ensures var n := Next(p, first); var k := |Query(rows, p.last)|;
            && n + k <= |rows| && Query(rows, p.last) == rows[n..n + k]
            && k == if |rows| - n < 500 then |rows| - n else 500
  {
    AboveIsTail(rows, Next(p, first), p.last);
  }

  // ---------------------------------------------------------------------------
  // The poller object
  // ---------------------------------------------------------------------------

  /** An instance that has just joined follows the log from its end. */
  lemma NewcomerFollows(log: Log)
    requires LogOk(log)
    ensures var last := if log.rows == [] then 0 else log.rows[|log.rows| - 1].ordinal;
            Follows(Poller(last, {}, [], []), log.rows, |log.rows|)
  {
    hide Counted;
  }

  class EventTransport {
    var lastOrdinal: nat
    var seen: set<EventId>
    var seenOrder: seq<EventId>
    /** Everything the subscribers have been given. */
    var emitted: seq<Row>

    /** An instance starts after the latest row there is. */
    constructor (table: EventTable)
      requires LogOk(table.Contents())
      ensures Follows(State(), table.rows, |table.rows|) && emitted == []
    {
      hide Follows, LogOk;
      NewcomerFollows(table.Contents());
      lastOrdinal := if table.rows == [] then 0 else table.rows[|table.rows| - 1].ordinal;
      seen, seenOrder, emitted := {}, [], [];
    }

    function State(): Poller
      reads this
    {
      Poller(lastOrdinal, seen, seenOrder, emitted)
    }

    method EmitUnseen(row: Row)
      modifies this
      ensures State() == Emit(old(State()), row)
    {
      if row.id in seen { return; }
      seen := seen + {row.id};
      seenOrder := seenOrder + [row.id];
      if |seenOrder| > SEEN_LIMIT {
        seen := seen - {seenOrder[0]};
        seenOrder := seenOrder[1..];
      }
      emitted := emitted + [row];
    }

    /** One chunk, row by row. */
    method DeliverRows(rows: seq<Row>)
      modifies this
      ensures State() == TakeAll(old(State()), rows)
    {
      for i := 0 to |rows|
        invariant State() == TakeAll(old(State()), rows[..i])
      {
        assert rows[..i + 1][..i] == rows[..i];
        if rows[i].ordinal > lastOrdinal { lastOrdinal := rows[i].ordinal; }
        EmitUnseen(rows[i]);
      }
      assert rows[..|rows|] == rows;
    }

    /** Reads chunk after chunk until a short one; nothing above its last ordinal is left behind. */
    method DrainAvailableRows(table: EventTable, ghost first: nat)
      requires LogOk(table.Contents()) && Follows(State(), table.rows, first)
      modifies this
      ensures table.Contents() == old(table.Contents())
      ensures Follows(State(), table.rows, first)
      ensures emitted == old(emitted) + Above(table.rows, old(lastOrdinal))
      ensures Above(table.rows, lastOrdinal) == []
    {
      hide Follows, LogOk, Take, TakeAll, Query, Above;
      ghost var log := table.Contents();
      TailAbove(State(), log.rows, first);
      var more := true;
      while more
        invariant table.Contents() == log && Follows(State(), log.rows, first)
        invariant Next(State(), first) <= |log.rows| && (!more ==> Next(State(), first) == |log.rows|)
        decreases |log.rows| - Next(State(), first), more
      {
        var rows := Query(table.rows, lastOrdinal);
        ChunkFollows(State(), log, first);
        DeliverRows(rows);
        more := |rows| == CHUNK;
      }
      TailAbove(State(), log.rows, first);
      DrainedAll(old(State()), State(), log.rows, first);
    }
  }

  lemma ChunkFollows(p: Poller, log: Log, first: nat)
    requires LogOk(log) && Follows(p, log.rows, first)
    ensures var rows := Query(log.rows, p.last); var q := TakeAll(p, rows);
            && |rows| <= CHUNK && Follows(q, log.rows, first)
            && Next(q, first) == Next(p, first) + |rows| <= |log.rows|
            && (|rows| < CHUNK ==> Next(q, first) == |log.rows|)
  {
    hide LogOk, Follows, TakeAll, Query;
    QueryIsStretch(p, log.rows, first);
    TakeAllFollows(p, log, first, |Query(log.rows, p.last)|);
  }

  lemma DrainedAll(p: Poller, q: Poller, rows: seq<Row>, first: nat)
    requires Follows(p, rows, first) && Follows(q, rows, first) && Next(q, first) == |rows|
    ensures q.emitted == p.emitted + Above(rows, p.last) && Above(rows, q.last) == []
  {
    hide Follows, Above;
    TailAbove(p, rows, first);
    TailAbove(q, rows, first);
    var n := Next(p, first);
    assert rows[first..n] + rows[n..] == rows[first..|rows|];
  }

  lemma TailAbove(p: Poller, rows: seq<Row>, first: nat)
    requires Follows(p, rows, first)
    ensures Next(p, first) <= |rows| && p.emitted == rows[first..Next(p, first)]
    ensures Above(rows, p.last) == rows[Next(p, first)..]
  {
    AboveIsTail(rows, Next(p, first), p.last);
  }
}
