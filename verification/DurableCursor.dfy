/**
 The client's durable cursor: it accepts only the event right behind its checkpoint, hands it to the
 consumers, persists, and only then advances; after a gap or a failure it reconnects with the checkpoint.
 Server and cursor together commit each replayable event once and in order over any number of
 connections. An event whose commit failed after a consumer had it is handed over again. What the two do
 not always do is make progress: live-only rows take sequence numbers too, and one of them in front of a
 replayable event is a gap the cursor never gets over.
 */
module DurableCursor {
  import opened Wrappers
  import opened EventLog
  import opened StreamReplay

  const SEEN_LIMIT := 512

  datatype Decision = Accepted | Duplicate | Gap

  datatype Checkpoint = Checkpoint(last: nat, initialized: bool, seen: seq<EventId>)

  function Begin(at: Checkpoint, id: EventId, sequence: int): Decision {
    if sequence <= 0 then Duplicate
    else if id in at.seen || sequence <= at.last then Duplicate
    else if at.initialized && sequence != at.last + 1 then Gap
    else Accepted
  }

  function Noted(seen: seq<EventId>, id: EventId): seq<EventId> {
    var all := seen + [id];
    if |all| > SEEN_LIMIT then all[1..] else all
  }

  function Committed(at: Checkpoint, id: EventId, sequence: nat): Checkpoint {
    Checkpoint(sequence, true, Noted(at.seen, id))
  }

  function Established(at: Checkpoint, sequence: nat): Checkpoint {
    if sequence < at.last then at else at.(last := sequence, initialized := true)
  }

  /** An event is due when it is new and, behind a checkpoint, the very next one; what is not past the checkpoint or is remembered comes again. */
  lemma BeginMeans(at: Checkpoint, id: EventId, sequence: int)
    ensures Begin(at, id, sequence).Accepted? <==>
              sequence > 0 && sequence > at.last && id !in at.seen && (at.initialized ==> sequence == at.last + 1)
    ensures Begin(at, id, sequence).Gap? <==> at.initialized && sequence > at.last + 1 && id !in at.seen
  {
  }

  /** A commit moves the checkpoint to its event and remembers the ids of the last 512 committed events. */
  lemma CommitMeans(at: Checkpoint, id: EventId, sequence: nat)
    requires |at.seen| <= 512
    ensures var after := Committed(at, id, sequence);
            && after.last == sequence && after.initialized
            && |after.seen| == (if |at.seen| < 512 then |at.seen| + 1 else 512)
            && after.seen == (at.seen + [id])[|at.seen| + 1 - |after.seen|..]
  {
  }

  /** The cursor of one signed-in user; stored is what survives a restart. */
  class DurableEventCursor {
    var lastSequence: nat
    var initialized: bool
    var seenIds: set<EventId>
    var seenOrder: seq<EventId>
    var stored: Option<nat>

    ghost predicate Valid()
      reads this
    {
      && (forall id :: id in seenIds <==> id in seenOrder)
      && (forall i, j :: 0 <= i < j < |seenOrder| ==> seenOrder[i] != seenOrder[j])
      && |seenOrder| <= 512
      && stored == (if initialized then Some(lastSequence) else None)
    }

    function Contents(): Checkpoint
      reads this
    {
      Checkpoint(lastSequence, initialized, seenOrder)
    }

    /** Signing in reads what an earlier session stored. */
    constructor (stored: Option<nat>)
      ensures Valid() && this.stored == stored
      ensures Contents() == Checkpoint(if stored.Some? then stored.value else 0, stored.Some?, [])
    {
      this.stored := stored;
      lastSequence := if stored.Some? then stored.value else 0;
      initialized := stored.Some?;
      seenIds, seenOrder := {}, [];
    }

    method BeginEvent(id: EventId, sequence: int) returns (decision: Decision)
      requires Valid()
      ensures decision == Begin(Contents(), id, sequence)
    {
      if sequence <= 0 { return Duplicate; }
      if id in seenIds || sequence <= lastSequence { return Duplicate; }
      if initialized && sequence != lastSequence + 1 { return Gap; }
      decision := Accepted;
    }

    method Persist(sequence: nat, storageWorks: bool) returns (persisted: bool)
      modifies this`stored, this`initialized
      ensures persisted == storageWorks
      ensures persisted ==> stored == Some(sequence) && initialized
      ensures !persisted ==> stored == old(stored) && initialized == old(initialized)
    {
      if storageWorks {
        stored := Some(sequence);
        initialized := true;
      }
      persisted := storageWorks;
    }

    /** Nothing moves unless the checkpoint was stored first. */
    method CommitEvent(id: EventId, sequence: int, storageWorks: bool) returns (done: bool)
      requires Valid()
      modifies this
      ensures Valid() && done == (Begin(old(Contents()), id, sequence).Accepted? && storageWorks)
      ensures done ==> sequence > 0 && Contents() == Committed(old(Contents()), id, sequence)
      ensures !done ==> Contents() == old(Contents()) && stored == old(stored)
    {
      var decision := BeginEvent(id, sequence);
      if !decision.Accepted? { return false; }
      var persisted := Persist(sequence, storageWorks);
      if !persisted { return false; }
      seenIds := seenIds + {id};
      seenOrder := seenOrder + [id];
      assert forall id :: id in seenOrder <==> id == seenOrder[0] || id in seenOrder[1..];
      if |seenOrder| > SEEN_LIMIT {
        seenIds := seenIds - {seenOrder[0]};
        seenOrder := seenOrder[1..];
      }
      lastSequence := sequence;
      done := true;
    }

    method Establish(sequence: nat, storageWorks: bool) returns (done: bool)
      requires Valid()
      modifies this
      ensures Valid() && done == (sequence < old(lastSequence) || storageWorks)
      ensures Contents() == if done then Established(old(Contents()), sequence) else old(Contents())
    {
      if sequence < lastSequence { return true; }
      done := Persist(sequence, storageWorks);
      if done { lastSequence := sequence; }
    }
  }

  // ---------------------------------------------------------------------------
  // One stretch of frames, as the client reads it
  // ---------------------------------------------------------------------------

  /** What becomes of a frame that is due: a consumer may throw, and so may either write to storage. */
  datatype Fate = Kept | ConsumerThrows | CommitFails | BaselineFails

  predicate Uncommitted(fate: Fate) { fate.ConsumerThrows? || fate.CommitFails? }

  function FateOf(fates: seq<Fate>, i: nat): Fate {
    if i < |fates| then fates[i] else Kept
  }

  /**
   What was handed to consumers, what was committed, and what was handed over without being committed;
   broken once the client has met a gap or a failure and given up the connection.
   */
  datatype Reader = Reader(at: Checkpoint, handed: seq<Row>, committed: seq<Row>, failed: seq<Row>, broken: bool)

  /** The first event of a client without a checkpoint puts the checkpoint right before itself. */
  function Read(reader: Reader, row: Row, fate: Fate): Reader {
    var first := !reader.at.initialized && row.sequence > 0;
    if reader.broken then reader
    else if first && reader.at.last < row.sequence && fate.BaselineFails? then reader.(broken := true)
    else
      var at := if first then Established(reader.at, row.sequence - 1) else reader.at;
      match Begin(at, row.id, row.sequence)
      case Duplicate => reader.(at := at)
      case Gap => reader.(at := at, broken := true)
      case Accepted =>
        if Uncommitted(fate) then Reader(at, reader.handed + [row], reader.committed, reader.failed + [row], true)
        else Reader(Committed(at, row.id, row.sequence), reader.handed + [row], reader.committed + [row], reader.failed, false)
  }

  /**
   One frame: without a checkpoint a first one is put right before it, or the connection is given up. What
   is not past the checkpoint or is remembered is passed over, a gap gives the connection up, and the very
   next event goes to the consumers; it moves the checkpoint when they and the storage both succeed, and
   gives the connection up otherwise.
   */
  lemma ReadMeans(reader: Reader, row: Row, fate: Fate)
    ensures var first := !reader.at.initialized && row.sequence > reader.at.last;
            var at := if first then Checkpoint(row.sequence - 1, true, reader.at.seen) else reader.at;
            Read(reader, row, fate) ==
            if reader.broken then reader
            else if first && fate == BaselineFails then reader.(broken := true)
            else if row.sequence <= at.last || row.id in at.seen then reader.(at := at)
            else if row.sequence > at.last + 1 then reader.(at := at, broken := true)
            else if fate == ConsumerThrows || fate == CommitFails then
              Reader(at, reader.handed + [row], reader.committed, reader.failed + [row], true)
            else
              Reader(Committed(at, row.id, row.sequence), reader.handed + [row], reader.committed + [row], reader.failed, false)
  {
    hide Noted;
  }

  function ReadAll(at: Checkpoint, frames: seq<Row>, fates: seq<Fate>): Reader {
    if frames == [] then Reader(at, [], [], [], false)
    else Read(ReadAll(at, frames[..|frames| - 1], fates), frames[|frames| - 1], FateOf(fates, |frames| - 1))
  }

  /** The socket's side of it: the queue's head goes to the consumers first and to storage afterwards. */
  class EventReader {
    const cursor: DurableEventCursor
    var handed: seq<Row>
    var committed: seq<Row>
    var failed: seq<Row>
    var broken: bool

    ghost predicate Valid()
      reads this, cursor
    {
      cursor.Valid()
    }

    function Contents(): Reader
      reads this, cursor
    {
      Reader(cursor.Contents(), handed, committed, failed, broken)
    }

    constructor (cursor: DurableEventCursor)
      requires cursor.Valid()
      ensures Valid() && this.cursor == cursor && Contents() == Reader(cursor.Contents(), [], [], [], false)
    {
      this.cursor := cursor;
      handed, committed, failed, broken := [], [], [], false;
    }

    method Receive(row: Row, fate: Fate)
      requires Valid()
      modifies this, cursor
      ensures Valid() && Contents() == Read(old(Contents()), row, fate)
    {
      if broken { return; }
      if !cursor.initialized && row.sequence > 0 {
        var based := cursor.Establish(row.sequence - 1, !fate.BaselineFails?);
        if !based {
          broken := true;
          return;
        }
      }
      var decision := cursor.BeginEvent(row.id, row.sequence);
      if decision.Duplicate? { return; }
      if decision.Gap? {
        broken := true;
        return;
      }
      handed := handed + [row];
      var done := false;
      if !fate.ConsumerThrows? {
        done := cursor.CommitEvent(row.id, row.sequence, !fate.CommitFails?);
      }
      if done {
        committed := committed + [row];
      } else {
        failed := failed + [row];
        broken := true;
      }
    }
  }

  predicate DistinctIds(all: seq<Row>) {
    forall i, j :: 0 <= i < j < |all| ==> all[i].id != all[j].id
  }

  /** An initialized checkpoint within the user's rows, remembering only ids of rows behind it. */
  ghost predicate At(all: seq<Row>, at: Checkpoint, b: nat) {
    && at.initialized && at.last == b <= |all|
    && forall id :: id in at.seen ==> exists i :: 0 <= i < b && all[i].id == id
  }

  /** The first live-only row from b on, or m when there is none before it. */
  function FirstLiveOnly(all: seq<Row>, b: nat, m: nat): (h: nat)
    requires b <= m <= |all|
    ensures b <= h <= m
    ensures forall i :: b <= i < h ==> Replayed(all[i])
    ensures h < m ==> !Replayed(all[h])
    decreases m - b
  {
    if b < m && Replayed(all[b]) then FirstLiveOnly(all, b + 1, m) else b
  }

  /** No live-only row stands in front of a replayable one. */
  predicate NoHole(all: seq<Row>, b: nat, m: nat)
    requires b <= m <= |all|
  {
    forall i, j :: b <= i < j < m && Replayed(all[j]) ==> Replayed(all[i])
  }

  /** The first frame among n whose commit fails after its consumers had it, or n. */
  function FirstFailure(fates: seq<Fate>, n: nat): (f: nat)
    ensures f <= n && (forall i :: 0 <= i < f ==> !Uncommitted(FateOf(fates, i))) && (f < n ==> Uncommitted(FateOf(fates, f)))
  {
    if n == 0 then 0
    else
      var f := FirstFailure(fates, n - 1);
      if f < n - 1 || Uncommitted(FateOf(fates, n - 1)) then f else n
  }

  lemma NextIsAccepted(all: seq<Row>, reader: Reader, k: nat, fate: Fate)
    requires Numbered(all) && DistinctIds(all) && k < |all| && At(all, reader.at, k) && !reader.broken
    ensures var after := Read(reader, all[k], fate);
            && after.handed == reader.handed + [all[k]]
            && (if Uncommitted(fate)
                then after == reader.(handed := after.handed, failed := reader.failed + [all[k]], broken := true)
                else At(all, after.at, k + 1) && !after.broken && after.committed == reader.committed + [all[k]] && after.failed == reader.failed)
  {
    var after := Read(reader, all[k], fate);
    assert all[k].id !in reader.at.seen;
    NotedIsNew(reader.at.seen, all[k].id);
    if !Uncommitted(fate) {
      forall id | id in after.at.seen ensures exists i :: 0 <= i < k + 1 && all[i].id == id {
        assert all[k].id == id || id in reader.at.seen;
      }
    }
  }

  lemma NotedIsNew(seen: seq<EventId>, id: EventId)
    ensures forall other :: other in Noted(seen, id) ==> other == id || other in seen
  {
  }

  lemma SelectNothing(all: seq<Row>, b: nat)
    requires b <= |all|
    ensures Select(all[b..b], Replayed) == []
  {
    assert all[b..b] == [];
  }

  lemma SelectOne(all: seq<Row>, b: nat, m: nat)
    requires b <= m < |all|
    ensures Select(all[b..m + 1], Replayed) == Select(all[b..m], Replayed) + if Replayed(all[m]) then [all[m]] else []
  {
    assert all[b..m + 1] == all[b..m] + [all[m]];
    SelectAppend(all[b..m], all[m], Replayed);
  }

  lemma FirstLiveOnlyGrows(all: seq<Row>, b: nat, m: nat)
    requires b <= m < |all|
    ensures FirstLiveOnly(all, b, m + 1) ==
            if FirstLiveOnly(all, b, m) < m then FirstLiveOnly(all, b, m) else if Replayed(all[m]) then m + 1 else m
    decreases m - b
  {
    if b < m && Replayed(all[b]) { FirstLiveOnlyGrows(all, b + 1, m); }
  }

  /**
   The client is handed the replayable rows up to the first live-only one or the first failing commit,
   that row included; it commits those before it, and gives up the connection exactly when a commit
   failed or a replayable row follows a live-only one.
   */
  lemma {:induction false} ReaderStops(all: seq<Row>, at: Checkpoint, b: nat, m: nat, fates: seq<Fate>)
    requires Numbered(all) && DistinctIds(all) && At(all, at, b) && b <= m <= |all|
    ensures StandsAt(all, ReadAll(at, Select(all[b..m], Replayed), fates), at, b, m, fates)
    decreases m - b
  {
    hide At, DistinctIds, Numbered, Read, Select, ReadAll, StandsAt;
    if b == m {
      SelectNothing(all, b);
      ReadNothing(at, fates);
      StandsAtStart(all, at, b, fates);
    } else {
      var n := m - 1;
      ReaderStops(all, at, b, n, fates);
      SelectOne(all, b, n);
      var frames := Select(all[b..n], Replayed);
      if Replayed(all[n]) {
        ReadOne(at, frames, all[n], fates);
        if FirstLiveOnly(all, b, n) == n { SelectEvery(all, b, n); }
        StandsBehindNext(all, ReadAll(at, frames, fates), at, b, n, fates, FateOf(fates, |frames|));
      } else {
        assert Select(all[b..m], Replayed) == frames;
        StandsBefore(all, ReadAll(at, frames, fates), at, b, n, fates);
      }
    }
  }

  ghost predicate StandsAt(all: seq<Row>, reader: Reader, at: Checkpoint, b: nat, m: nat, fates: seq<Fate>)
    requires b <= m <= |all|
  {
    var h := FirstLiveOnly(all, b, m);
    var f := FirstFailure(fates, h - b);
    && At(all, reader.at, b + f) && reader.committed == all[b..b + f]
    && reader.failed == (if f < h - b then [all[b + f]] else []) && reader.handed == reader.committed + reader.failed
    && (reader.broken <==> f < h - b || exists k :: h < k < m && Replayed(all[k]))
    && (f == 0 ==> reader.at == at)
  }

  lemma StandsAtStart(all: seq<Row>, at: Checkpoint, b: nat, fates: seq<Fate>)
    requires At(all, at, b) && b <= |all|
    ensures StandsAt(all, Reader(at, [], [], [], false), at, b, b, fates)
  {
    hide At;
  }

  /** A live-only row sends nothing. */
  lemma StandsBefore(all: seq<Row>, reader: Reader, at: Checkpoint, b: nat, n: nat, fates: seq<Fate>)
    requires b <= n < |all| && !Replayed(all[n]) && StandsAt(all, reader, at, b, n, fates)
    ensures StandsAt(all, reader, at, b, n + 1, fates)
  {
    hide At, FirstFailure;
    FirstLiveOnlyGrows(all, b, n);
  }

  lemma StandsBehindNext(all: seq<Row>, reader: Reader, at: Checkpoint, b: nat, n: nat, fates: seq<Fate>, fate: Fate)
    requires Numbered(all) && DistinctIds(all) && b <= n < |all| && Replayed(all[n]) && StandsAt(all, reader, at, b, n, fates)
    requires FirstLiveOnly(all, b, n) == n ==> fate == FateOf(fates, n - b)
    ensures StandsAt(all, Read(reader, all[n], fate), at, b, n + 1, fates)
  {
    hide At, DistinctIds, Numbered, Read, FirstFailure, StandsAt;
    if FirstLiveOnly(all, b, n) == n {
      StraightOn(all, reader, at, b, n, fates);
    } else {
      StandsBehindHole(all, reader, at, b, n, fates, fate);
    }
  }

  lemma StandsBehindHole(all: seq<Row>, reader: Reader, at: Checkpoint, b: nat, n: nat, fates: seq<Fate>, fate: Fate)
    requires Numbered(all) && DistinctIds(all) && b <= n < |all| && Replayed(all[n]) && StandsAt(all, reader, at, b, n, fates)
    requires FirstLiveOnly(all, b, n) < n
    ensures StandsAt(all, Read(reader, all[n], fate), at, b, n + 1, fates)
  {
    hide At, DistinctIds, Numbered, Read, FirstFailure;
    FirstLiveOnlyGrows(all, b, n);
    var h := FirstLiveOnly(all, b, n);
    BehindHole(all, reader, b + FirstFailure(fates, h - b), n, fate);
    assert h < n < n + 1;
  }

  /** No live-only row so far: the next row is the next event, unless a commit failed before. */
  lemma StraightOn(all: seq<Row>, before: Reader, at: Checkpoint, b: nat, n: nat, fates: seq<Fate>)
    requires Numbered(all) && DistinctIds(all) && b <= n < |all| && Replayed(all[n]) && StandsAt(all, before, at, b, n, fates)
    requires FirstLiveOnly(all, b, n) == n
    ensures StandsAt(all, Read(before, all[n], FateOf(fates, n - b)), at, b, n + 1, fates)
  {
    hide At, DistinctIds, Numbered, Read, FirstFailure, FirstLiveOnly;
    FirstLiveOnlyGrows(all, b, n);
    FirstFailureGrows(fates, n - b);
    if FirstFailure(fates, n - b) < n - b {
      BrokenStays(before, all[n], FateOf(fates, n - b));
    } else {
      NextIsAccepted(all, before, n, FateOf(fates, n - b));
      assert all[b..n + 1] == all[b..n] + [all[n]];
    }
  }

  lemma FirstFailureGrows(fates: seq<Fate>, n: nat)
    ensures FirstFailure(fates, n + 1) ==
            if FirstFailure(fates, n) < n || Uncommitted(FateOf(fates, n)) then FirstFailure(fates, n) else n + 1
  {
  }

  lemma BrokenStays(reader: Reader, row: Row, fate: Fate)
    requires reader.broken
    ensures Read(reader, row, fate) == reader
  {
  }

  lemma BehindHole(all: seq<Row>, reader: Reader, h: nat, n: nat, fate: Fate)
    requires Numbered(all) && DistinctIds(all) && h < n < |all| && At(all, reader.at, h)
    ensures Read(reader, all[n], fate) == reader.(broken := true)
  {
  }

  lemma ReadNothing(at: Checkpoint, fates: seq<Fate>)
    ensures ReadAll(at, [], fates) == Reader(at, [], [], [], false)
  {
  }

  lemma ReadOne(at: Checkpoint, frames: seq<Row>, row: Row, fates: seq<Fate>)
    ensures ReadAll(at, frames + [row], fates) == Read(ReadAll(at, frames, fates), row, FateOf(fates, |frames|))
  {
    assert (frames + [row])[..|frames|] == frames;
  }

  /**
   A client commits every frame of a stretch if and only if no commit fails and no live-only row stands
   in front of a replayable one.
   */
  lemma ClientKeepsUpIff(all: seq<Row>, at: Checkpoint, b: nat, m: nat, fates: seq<Fate>)
    requires Numbered(all) && DistinctIds(all) && At(all, at, b) && b <= m <= |all|
    ensures var frames := Select(all[b..m], Replayed); var reader := ReadAll(at, frames, fates);
            && (!reader.broken <==> NoHole(all, b, m) && forall i :: 0 <= i < |frames| ==> !Uncommitted(FateOf(fates, i)))
            && (!reader.broken <==> reader.committed == frames)
  {
    hide At, DistinctIds, Numbered, ReadAll;
    ReaderStops(all, at, b, m, fates);
    var (reader, h) := (ReadAll(at, Select(all[b..m], Replayed), fates), FirstLiveOnly(all, b, m));
    SelectSplits(all, b, h, m);
    if k :| h < k < m && Replayed(all[k]) {
      assert !Replayed(all[h]);
      SelectCovers(all, h, m, k);
    } else {
      SelectNone(all, h, m);
    }
  }

  lemma {:induction false} SelectConcat(all: seq<Row>, a: nat, b: nat, m: nat)
    requires a <= b <= m <= |all|
    ensures Select(all[a..m], Replayed) == Select(all[a..b], Replayed) + Select(all[b..m], Replayed)
    decreases m - b
  {
    hide Select;
    if b < m {
      SelectConcat(all, a, b, m - 1);
      SelectOne(all, a, m - 1);
      SelectOne(all, b, m - 1);
    } else {
      SelectNothing(all, b);
    }
  }

  lemma SelectSplits(all: seq<Row>, b: nat, h: nat, m: nat)
    requires b <= h <= m <= |all| && forall i :: b <= i < h ==> Replayed(all[i])
    ensures Select(all[b..m], Replayed) == all[b..h] + Select(all[h..m], Replayed)
  {
    SelectEvery(all, b, h);
    SelectConcat(all, b, h, m);
  }

  lemma {:induction false} SelectEvery(all: seq<Row>, b: nat, h: nat)
    requires b <= h <= |all| && forall i :: b <= i < h ==> Replayed(all[i])
    ensures Select(all[b..h], Replayed) == all[b..h]
    decreases h - b
  {
    hide Select;
    if b == h {
      SelectNothing(all, b);
    } else {
      SelectEvery(all, b, h - 1);
      SelectOne(all, b, h - 1);
      assert all[b..h] == all[b..h - 1] + [all[h - 1]];
    }
  }

  lemma {:induction false} SelectNone(all: seq<Row>, h: nat, m: nat)
    requires h <= m <= |all| && forall i :: h <= i < m ==> !Replayed(all[i])
    ensures Select(all[h..m], Replayed) == []
    decreases m - h
  {
    if h < m {
      SelectNone(all, h, m - 1);
      SelectOne(all, h, m - 1);
    }
  }

  lemma {:induction false} SelectCovers(all: seq<Row>, h: nat, m: nat, k: nat)
    requires h <= k < m <= |all| && Replayed(all[k])
    ensures Select(all[h..m], Replayed) != []
    decreases m
  {
    SelectOne(all, h, m - 1);
    if k < m - 1 { SelectCovers(all, h, m - 1, k); }
  }

  // ---------------------------------------------------------------------------
  // Any number of connections
  // ---------------------------------------------------------------------------

  /**
   One stretch of a connection: the catch-up, which the server closes with its eventCursor, or the
   live part behind it. The server stood at tail when the stretch ended, this many of its frames
   arrived, and perhaps the eventCursor after all of them, and was stored.
   */
  datatype Served = Served(all: seq<Row>, tail: nat, arrived: nat, handshake: bool, fates: seq<Fate>)

  datatype Session = Session(at: Checkpoint, handed: seq<Row>, committed: seq<Row>, failed: seq<Row>)

  function Frames(c: Served, from: nat): seq<Row> {
    var frames := Select(Stretch(c.all, from, c.tail), Replayed);
    if c.arrived < |frames| then frames[..c.arrived] else frames
  }

  /** The client is served from its checkpoint, reads what arrives, and takes the server's cursor when it has read everything. */
  function Serve(s: Session, c: Served): Session {
    var frames := Select(Stretch(c.all, s.at.last, c.tail), Replayed);
    var reader := ReadAll(s.at, Frames(c, s.at.last), c.fates);
    var done := c.handshake && !reader.broken && |frames| <= c.arrived;
    Session(if done then Established(reader.at, c.tail) else reader.at,
            s.handed + reader.handed, s.committed + reader.committed, s.failed + reader.failed)
  }

  /** A stretch read to its end without a break moves the checkpoint to the server's tail, never back; any other leaves it where reading did. */
  lemma HandshakeMeans(s: Session, c: Served)
    ensures var frames := Select(Stretch(c.all, s.at.last, c.tail), Replayed);
            var n := if c.arrived < |frames| then c.arrived else |frames|;
            var (reader, after) := (ReadAll(s.at, frames[..n], c.fates), Serve(s, c));
            && after.at == (if c.handshake && n == |frames| && !reader.broken && c.tail >= reader.at.last
                            then Checkpoint(c.tail, true, reader.at.seen) else reader.at)
            && after.handed == s.handed + reader.handed && after.committed == s.committed + reader.committed
            && after.failed == s.failed + reader.failed
  {
    hide Select, Stretch, ReadAll;
    var frames := Select(Stretch(c.all, s.at.last, c.tail), Replayed);
    assert frames[..|frames|] == frames;
  }

  function ServeAll(s: Session, stretches: seq<Served>): Session {
    if stretches == [] then s else Serve(ServeAll(s, stretches[..|stretches| - 1]), stretches[|stretches| - 1])
  }

  ghost predicate IsPrefix(a: seq<Row>, b: seq<Row>) { |a| <= |b| && b[..|a|] == a }

  /** The user's rows only ever grow, are numbered, and no server stands beyond them. */
  ghost predicate HistoryOk(stretches: seq<Served>) {
    forall i :: 0 <= i < |stretches| ==>
      && Numbered(stretches[i].all) && DistinctIds(stretches[i].all) && stretches[i].tail <= |stretches[i].all|
      && forall j :: 0 <= j <= i ==> IsPrefix(stretches[j].all, stretches[i].all)
  }

  predicate Ascending(rows: seq<Row>) {
    forall i, j :: 0 <= i < j < |rows| ==> rows[i].sequence <= rows[j].sequence
  }

  /** A row whose commit failed is replayable, and by now committed or the next one due. */
  predicate FailedRow(all: seq<Row>, a: nat, last: nat, row: Row) {
    a < row.sequence <= last + 1 && row.sequence <= |all| && all[row.sequence - 1] == row && Replayed(row)
  }

  /**
   Exactly the replayable rows between the starting point and the checkpoint have been committed. What
   was handed over is that and one more time every row whose commit failed, in order.
   */
  ghost predicate AccountOk(all: seq<Row>, a: nat, s: Session) {
    && a <= s.at.last && At(all, s.at, s.at.last) && s.committed == Select(Stretch(all, a, s.at.last), Replayed)
    && multiset(s.handed) == multiset(s.committed) + multiset(s.failed)
    && (s.failed == [] <==> s.handed == s.committed)
    && (forall i :: 0 <= i < |s.failed| ==> FailedRow(all, a, s.at.last, s.failed[i]))
    && Ascending(s.handed) && (forall i :: 0 <= i < |s.handed| ==> s.handed[i].sequence <= s.at.last + 1)
  }

  lemma {:induction false} SelectPrefix(all: seq<Row>, b: nat, m: nat, n: nat) returns (k: nat)
    requires b <= m <= |all| && n <= |Select(all[b..m], Replayed)|
    ensures b <= k <= m && Select(all[b..m], Replayed)[..n] == Select(all[b..k], Replayed)
    decreases m - b
  {
    if n == |Select(all[b..m], Replayed)| {
      k := m;
    } else {
      SelectOne(all, b, m - 1);
      k := SelectPrefix(all, b, m - 1, n);
    }
  }

  lemma GrownAccount(all: seq<Row>, more: seq<Row>, a: nat, s: Session)
    requires AccountOk(all, a, s) && IsPrefix(all, more)
    ensures AccountOk(more, a, s)
  {
    assert forall i :: 0 <= i < |all| ==> more[i] == all[i];
    assert more[a..s.at.last] == all[a..s.at.last];
  }

  /** Adding a stretch of committed rows, and perhaps the row behind it, to the account. */
  lemma MoreAccount(all: seq<Row>, a: nat, s: Session, b: nat, k: nat, failed: seq<Row>, after: Session)
    requires AccountOk(all, a, s) && Numbered(all) && s.at.last == b <= k <= |all|
    requires failed == [] || (k < |all| && Replayed(all[k]) && failed == [all[k]])
    requires At(all, after.at, k) && after.committed == s.committed + all[b..k] && (forall i :: b <= i < k ==> Replayed(all[i]))
    requires after.failed == s.failed + failed && after.handed == s.handed + all[b..k] + failed
    ensures AccountOk(all, a, after)
  {
    hide Select;
    SelectConcat(all, a, b, k);
    SelectEvery(all, b, k);
    assert after.committed == Select(Stretch(all, a, k), Replayed);
    assert forall i :: 0 <= i < |after.failed| ==> FailedRow(all, a, k, after.failed[i]);
    HandedAscends(all, s.handed, b, k, failed);
    FailuresShow(s, after, all[b..k], failed);
  }

  lemma HandedAscends(all: seq<Row>, handed: seq<Row>, b: nat, k: nat, failed: seq<Row>)
    requires Numbered(all) && b <= k <= |all| && Ascending(handed)
    requires forall i :: 0 <= i < |handed| ==> handed[i].sequence <= b + 1
    requires failed == [] || (k < |all| && failed == [all[k]])
    ensures var after := handed + all[b..k] + failed;
            Ascending(after) && forall i :: 0 <= i < |after| ==> after[i].sequence <= k + 1
  {
  }

  lemma FailuresShow(s: Session, after: Session, rows: seq<Row>, failed: seq<Row>)
    requires multiset(s.handed) == multiset(s.committed) + multiset(s.failed) && (s.failed == [] <==> s.handed == s.committed)
    requires after.committed == s.committed + rows && after.failed == s.failed + failed && after.handed == s.handed + rows + failed
    ensures multiset(after.handed) == multiset(after.committed) + multiset(after.failed)
    ensures after.failed == [] <==> after.handed == after.committed
  {
    assert |multiset(after.handed)| == |multiset(after.committed)| + |after.failed|;
  }

  /** The frames that arrived keep the account, before any eventCursor. */
  lemma ReadKeeps(s: Session, c: Served, a: nat)
    requires AccountOk(c.all, a, s) && Numbered(c.all) && DistinctIds(c.all) && s.at.last <= c.tail <= |c.all|
    ensures var reader := ReadAll(s.at, Frames(c, s.at.last), c.fates);
            && s.at.last <= reader.at.last
            && AccountOk(c.all, a, Session(reader.at, s.handed + reader.handed, s.committed + reader.committed, s.failed + reader.failed))
  {
    hide Numbered, DistinctIds, ReadAll, Select, FirstLiveOnly, AccountOk, FirstFailure;
    var (all, b) := (c.all, s.at.last);
    assert At(all, s.at, b) by { AccountMeans(all, a, s); }
    var frames := Select(all[b..c.tail], Replayed);
    var m := SelectPrefix(all, b, c.tail, if c.arrived < |frames| then c.arrived else |frames|);
    ReaderStops(all, s.at, b, m, c.fates);
    assert Frames(c, b) == Select(all[b..m], Replayed);
    var reader := ReadAll(s.at, Frames(c, b), c.fates);
    var k := b + FirstFailure(c.fates, FirstLiveOnly(all, b, m) - b);
    var read := Session(reader.at, s.handed + reader.handed, s.committed + reader.committed, s.failed + reader.failed);
    assert read.handed == s.handed + all[b..k] + reader.failed;
    MoreAccount(all, a, s, b, k, reader.failed, read);
  }

  /** One stretch keeps the account. */
  lemma ServeKeeps(s: Session, c: Served, a: nat)
    requires AccountOk(c.all, a, s) && Numbered(c.all) && DistinctIds(c.all) && c.tail <= |c.all|
    ensures AccountOk(c.all, a, Serve(s, c)) && s.at.last <= Serve(s, c).at.last
  {
    hide Numbered, DistinctIds, ReadAll, Select, FirstLiveOnly, AccountOk, FirstFailure;
    var (all, b) := (c.all, s.at.last);
    if b <= c.tail {
      ReadKeeps(s, c, a);
      var (frames, reader) := (Select(all[b..c.tail], Replayed), ReadAll(s.at, Frames(c, b), c.fates));
      if c.handshake && !reader.broken && |frames| <= c.arrived {
        var read := Session(reader.at, s.handed + reader.handed, s.committed + reader.committed, s.failed + reader.failed);
        assert At(all, s.at, b) by { AccountMeans(all, a, s); }
        ReaderStops(all, s.at, b, c.tail, c.fates);
        EstablishedKeeps(all, a, read, FirstLiveOnly(all, b, c.tail), c.tail);
      }
    } else {
      NothingRead(s, c);
    }
  }

  lemma AccountMeans(all: seq<Row>, a: nat, s: Session)
    requires AccountOk(all, a, s)
    ensures At(all, s.at, s.at.last) && a <= s.at.last
  {
  }

  lemma NothingRead(s: Session, c: Served)
    requires s.at.last > c.tail
    ensures Serve(s, c) == s
  {
    assert Frames(c, s.at.last) == [];
  }

  /** Moving the checkpoint to the server's tail passes over live-only rows and nothing else. */
  lemma EstablishedKeeps(all: seq<Row>, a: nat, s: Session, h: nat, m: nat)
    requires AccountOk(all, a, s) && s.at.last == h <= m <= |all| && forall k :: h <= k < m ==> !Replayed(all[k])
    ensures AccountOk(all, a, s.(at := Established(s.at, m)))
  {
    hide Select;
    SelectConcat(all, a, h, m);
    SelectNone(all, h, m);
  }

  /**
   Over any number of connections, cut off at any frame and to any instance, with consumers that throw
   and writes that fail: a client has committed exactly the replayable events between where it started
   and its checkpoint, each once and in order; each was handed to the consumers before, in order, and
   once more for every time its commit failed. What was handed over is what was committed exactly when
   no commit failed.
   */
  lemma {:induction false} CommitsEachEventOnce(all: seq<Row>, s: Session, a: nat, stretches: seq<Served>)
    requires AccountOk(all, a, s) && HistoryOk(stretches) && (stretches != [] ==> IsPrefix(all, stretches[0].all))
    ensures var end := if stretches == [] then all else stretches[|stretches| - 1].all;
            AccountOk(end, a, ServeAll(s, stretches)) && s.at.last <= ServeAll(s, stretches).at.last
  {
    hide AccountOk, Serve, Numbered, DistinctIds, IsPrefix;
    if stretches != [] {
      var n := |stretches| - 1;
      var (front, c) := (stretches[..n], stretches[n]);
      assert HistoryOk(front) && (front != [] ==> front[0] == stretches[0]);
      CommitsEachEventOnce(all, s, a, front);
      var before := if front == [] then all else front[n - 1].all;
      assert IsPrefix(before, c.all);
      GrownAccount(before, c.all, a, ServeAll(s, front));
      ServeKeeps(ServeAll(s, front), c, a);
    }
  }

  /** A client without a checkpoint opens its account right before the first event it meets, unless storage refuses even that. */
  lemma FirstEventOpensAccount(all: seq<Row>, k: nat, fate: Fate)
    requires Numbered(all) && k < |all| && Replayed(all[k])
    ensures var reader := Read(Reader(Checkpoint(0, false, []), [], [], [], false), all[k], fate);
            if fate.BaselineFails? then reader == Reader(Checkpoint(0, false, []), [], [], [], true)
            else AccountOk(all, k, Session(reader.at, reader.handed, reader.committed, reader.failed))
  {
    var reader := Read(Reader(Checkpoint(0, false, []), [], [], [], false), all[k], fate);
    SelectNothing(all, k);
    SelectOne(all, k, k);
    if !fate.BaselineFails? && !Uncommitted(fate) {
      assert reader.at.seen == [all[k].id];
      assert all[k].id == reader.at.seen[0];
    }
  }

  // ---------------------------------------------------------------------------
  // How often a consumer sees an event
  // ---------------------------------------------------------------------------

  lemma {:induction false} SelectHasNoRepeats(all: seq<Row>, a: nat, m: nat, row: Row)
    requires Numbered(all) && a <= m <= |all|
    ensures multiset(Select(all[a..m], Replayed))[row] ==
            if a < row.sequence <= m && all[row.sequence - 1] == row && Replayed(row) then 1 else 0
    decreases m - a
  {
    hide Select;
    if a == m {
      SelectNothing(all, a);
    } else {
      SelectHasNoRepeats(all, a, m - 1, row);
      SelectOne(all, a, m - 1);
    }
  }

  /**
   No consumer sees an event twice if and only if at most one commit has failed and its event has not
   been committed since.
   */
  lemma HandedOnceIff(all: seq<Row>, a: nat, s: Session)
    requires Numbered(all) && AccountOk(all, a, s)
    ensures (forall row: Row :: multiset(s.handed)[row] <= 1) <==>
            s.failed == [] || (|s.failed| == 1 && s.at.last < s.failed[0].sequence)
  {
    hide Select;
    var last := s.at.last;
    assert multiset(s.handed) == multiset(s.committed) + multiset(s.failed);
    if i :| 0 <= i < |s.failed| && s.failed[i].sequence <= last {
      SelectHasNoRepeats(all, a, last, s.failed[i]);
      assert multiset(s.handed)[s.failed[i]] >= 2;
    } else if |s.failed| >= 2 {
      assert s.failed[0].sequence == last + 1 && s.failed[1].sequence == last + 1;
      TwiceFailed(s.failed);
      assert multiset(s.handed)[s.failed[0]] >= 2;
    } else {
      forall row: Row ensures multiset(s.handed)[row] <= 1 {
        SelectHasNoRepeats(all, a, last, row);
        OneFailure(s.failed, row);
      }
    }
  }

  lemma TwiceFailed(failed: seq<Row>)
    requires |failed| >= 2 && failed[0] == failed[1]
    ensures multiset(failed)[failed[0]] >= 2
  {
    assert failed == [failed[0], failed[1]] + failed[2..];
  }

  lemma OneFailure(failed: seq<Row>, row: Row)
    requires |failed| <= 1
    ensures multiset(failed)[row] == if failed != [] && failed[0] == row then 1 else 0
  {
  }

  const ORDER_ROW := Row(1, 1, "user", 1, None, OrderUpdate, "order")

  /**
   The other case is real: storage refuses the checkpoint after the consumer has run, the client
   reconnects with the old one, and the consumer sees the same order again.
   */
  lemma EventHandedTwice()
    ensures var (failing, working) := (Served([ORDER_ROW], 1, 1, false, [CommitFails]), Served([ORDER_ROW], 1, 1, false, []));
            var s := ServeAll(Session(Checkpoint(0, true, []), [], [], []), [failing, working]);
            s.handed == [ORDER_ROW, ORDER_ROW] && s.committed == [ORDER_ROW] && s.at.last == 1
  {
    var (failing, working) := (Served([ORDER_ROW], 1, 1, false, [CommitFails]), Served([ORDER_ROW], 1, 1, false, []));
    var start := Session(Checkpoint(0, true, []), [], [], []);
    assert Stretch([ORDER_ROW], 0, 1) == [ORDER_ROW] && [ORDER_ROW][..0] == [];
    assert Select([ORDER_ROW], Replayed) == [ORDER_ROW];
    ReadOne(start.at, [], ORDER_ROW, [CommitFails]);
    ReadOne(start.at, [], ORDER_ROW, []);
    assert Serve(start, failing) == Session(start.at, [ORDER_ROW], [], [ORDER_ROW]);
    assert Serve(Serve(start, failing), working).handed == [ORDER_ROW, ORDER_ROW];
    var stretches := [failing, working];
    assert stretches[..1] == [failing] && [failing][..0] == [];
    assert ServeAll(start, [failing]) == Serve(start, failing);
  }

  /**
   The gap that stays: with a live-only row right behind its checkpoint and a replayable one after it,
   a client is handed nothing and moves nowhere on any connection from then on.
   */
  lemma LiveOnlyRowBlocksClient(all: seq<Row>, s: Session, b: nat, k: nat, c: Served)
    requires Numbered(all) && DistinctIds(all) && At(all, s.at, b) && b < k < |all| && !Replayed(all[b]) && Replayed(all[k])
    requires Numbered(c.all) && DistinctIds(c.all) && IsPrefix(all, c.all) && k < c.tail <= |c.all|
    ensures Serve(s, c) == s
  {
    hide Numbered, DistinctIds, ReadAll, Select, FirstFailure, FirstLiveOnly;
    var more := c.all;
    assert At(more, s.at, b) && !Replayed(more[b]) && Replayed(more[k]) by {
      assert forall i :: 0 <= i < |all| ==> more[i] == all[i];
    }
    hide At;
    var frames := Select(more[b..c.tail], Replayed);
    var m := SelectPrefix(more, b, c.tail, if c.arrived < |frames| then c.arrived else |frames|);
    NothingBehindHole(more, s.at, b, m, c.fates);
    NothingBehindHole(more, s.at, b, c.tail, c.fates);
    assert s.handed + [] == s.handed && s.committed + [] == s.committed && s.failed + [] == s.failed;
  }

  lemma NothingBehindHole(all: seq<Row>, at: Checkpoint, b: nat, m: nat, fates: seq<Fate>)
    requires Numbered(all) && DistinctIds(all) && At(all, at, b) && b <= m <= |all| && (b < |all| ==> !Replayed(all[b]))
    ensures var reader := ReadAll(at, Select(all[b..m], Replayed), fates);
            && reader.at == at && reader.handed == [] && reader.committed == [] && reader.failed == []
            && ((exists k :: b < k < m && Replayed(all[k])) ==> reader.broken)
  {
    hide Numbered, DistinctIds, ReadAll, Select, At;
    ReaderStops(all, at, b, m, fates);
    assert FirstLiveOnly(all, b, m) == b;
  }

  lemma {:induction false} ClientStaysBlocked(all: seq<Row>, s: Session, b: nat, k: nat, stretches: seq<Served>)
    requires Numbered(all) && DistinctIds(all) && At(all, s.at, b) && b < k < |all| && !Replayed(all[b]) && Replayed(all[k])
    requires HistoryOk(stretches) && forall i :: 0 <= i < |stretches| ==> IsPrefix(all, stretches[i].all) && k < stretches[i].tail
    ensures ServeAll(s, stretches) == s
  {
    hide Numbered, DistinctIds, At, IsPrefix, Serve;
    if stretches != [] {
      var n := |stretches| - 1;
      assert HistoryOk(stretches[..n]);
      ClientStaysBlocked(all, s, b, k, stretches[..n]);
      LiveOnlyRowBlocksClient(all, s, b, k, stretches[n]);
    }
  }

  // ---------------------------------------------------------------------------
  // Server and client together
  // ---------------------------------------------------------------------------

  lemma UserRowsAreDistinct(log: Log, user: string)
    requires LogOk(log)
    ensures Numbered(UserRows(log.rows, user)) && DistinctIds(UserRows(log.rows, user))
  {
    UserSequences(log.rows, user);
    hide LogOk, UserRows;
    var all := UserRows(log.rows, user);
    forall i, j | 0 <= i < j < |all| ensures all[i].id != all[j].id { UserIdsDiffer(log, user, i, j); }
  }

  /** What the stream sends a client that reconnects with its checkpoint is a stretch as the client's account needs it. */
  lemma ServerFeedsCursor(log: Log, passed: nat, user: string, at: Checkpoint, events: seq<StreamReplay.Event>)
    requires LogOk(log) && passed <= |log.rows| && At(UserRows(log.rows, user), at, at.last)
    ensures var w := After(Connected(log, passed, user, Some(at.last)), events); var all := UserRows(w.log.rows, user);
            && Numbered(all) && DistinctIds(all) && IsPrefix(UserRows(log.rows, user), all)
            && at.last <= w.client.last <= |all| && w.client.sent == Select(all[at.last..w.client.last], Replayed)
  {
    var start := Connected(log, passed, user, Some(at.last));
    var w := After(start, events);
    ClientReceivesEveryEvent(log, passed, user, at.last, events);
    ConnectedOk(log, passed, user, Some(at.last));
    EveryConnectionIsOk(start, events);
    LogOnlyGrows(start, events);
    UserRowsAreDistinct(w.log, user);
    hide LogOk, UserRows, After, Numbered, DistinctIds;
    var n := |log.rows|;
    UserPrefix(w.log.rows, n, user);
  }
}
