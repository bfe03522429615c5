/**
 The in-process order event bus: a promise chain per user, each job retried at most three times over
 the ingestors that were registered when it was enqueued.
 */
module OrderEventQueue {
  import opened Wrappers
  import opened Sorting

  const INGEST_ATTEMPTS := 3

  type IngestorId = nat

  datatype Entry = Entry(id: nat, ingestor: IngestorId, priority: int)

  datatype Call = Call(attempt: nat, ingestor: IngestorId, ok: bool)

  /** Waiting for the user's earlier job, inside an attempt, pausing before the next one, or over. */
  datatype Progress =
    | Waiting
    | Ingesting(attempt: nat, done: nat)
    | Pausing(attempt: nat)
    | Delivered(attempt: nat)
    | Exhausted

  datatype Job = Job(user: string, payload: string, ingestors: seq<IngestorId>, previous: Option<nat>, progress: Progress, calls: seq<Call>)

  /** The bus; delivered lists the jobs whose event went out to the subscribers, in that order. */
  datatype Bus = Bus(ingestors: seq<Entry>, nextId: nat, tails: map<string, nat>, jobs: seq<Job>, delivered: seq<nat>)

  const IDLE := Bus([], 0, map[], [], [])

  datatype Event =
    | Register(ingestor: IngestorId, priority: int)
    | Unregister(id: nat)
    | Enqueue(user: string, payload: string)
    | Start(job: nat)
    | Answer(job: nat, ok: bool)
    | Deliver(job: nat)
    | Retry(job: nat)
    | ClearQueue(job: nat)

  // ---------------------------------------------------------------------------
  // Registration
  // ---------------------------------------------------------------------------

  predicate ByPriority(entries: seq<Entry>) {
    forall i, j :: 0 <= i < j < |entries| ==> entries[i].priority >= entries[j].priority
  }

  /** Higher priorities come first; the sort is stable. */
  function RankOf(entry: Entry): int { -entry.priority }

  /** The new entry goes after every entry of at least its priority; all others keep their places. */
  lemma InsertedPlace(entries: seq<Entry>, entry: Entry) returns (k: nat)
    requires ByPriority(entries)
    ensures k <= |entries| && Inserted(entries, entry, RankOf) == entries[..k] + [entry] + entries[k..]
    ensures forall i :: 0 <= i < k ==> entries[i].priority >= entry.priority
    ensures forall i :: k <= i < |entries| ==> entries[i].priority < entry.priority
    ensures ByPriority(Inserted(entries, entry, RankOf))
  {
    k := InsertedAt(entries, entry, RankOf);
    InsertedInOrder(entries, entry, RankOf);
    var after := Inserted(entries, entry, RankOf);
    forall i, j | 0 <= i < j < |after| ensures after[i].priority >= after[j].priority {
      assert RankOf(after[i]) <= RankOf(after[j]);
    }
    forall i | 0 <= i < k ensures entries[i].priority >= entry.priority { assert RankOf(entries[i]) <= RankOf(entry); }
    forall i | k <= i < |entries| ensures entries[i].priority < entry.priority { assert RankOf(entry) < RankOf(entries[i]); }
  }

  function Without(entries: seq<Entry>, id: nat): seq<Entry> {
    if entries == [] then []
    else if entries[0].id == id then entries[1..]
    else [entries[0]] + Without(entries[1..], id)
  }

  lemma {:induction false} WithoutKeepsOrder(entries: seq<Entry>, id: nat)
    requires ByPriority(entries)
    ensures ByPriority(Without(entries, id))
    ensures forall entry :: entry in Without(entries, id) ==> entry in entries
  {
    if entries != [] && entries[0].id != id {
      WithoutKeepsOrder(entries[1..], id);
      var rest := Without(entries[1..], id);
      forall i | 0 <= i < |rest| ensures entries[0].priority >= rest[i].priority {
        assert rest[i] in entries[1..];
      }
    }
  }

  lemma {:induction false} WithoutAt(entries: seq<Entry>, id: nat, i: nat)
    requires i <= |entries| && (i < |entries| ==> entries[i].id == id)
    requires forall k :: 0 <= k < i ==> entries[k].id != id
    ensures Without(entries, id) == if i < |entries| then entries[..i] + entries[i + 1..] else entries
  {
    if 0 < i {
      var rest := entries[1..];
      WithoutAt(rest, id, i - 1);
      assert entries[..i] == [entries[0]] + rest[..i - 1];
      assert i < |entries| ==> entries[i + 1..] == rest[i..];
    } else if entries != [] {
      assert entries[..0] + entries[1..] == entries[1..];
    }
  }

  function Snapshot(entries: seq<Entry>): (ids: seq<IngestorId>)
    ensures |ids| == |entries| && forall i :: 0 <= i < |ids| ==> ids[i] == entries[i].ingestor
  {
    seq(|entries|, i requires 0 <= i < |entries| => entries[i].ingestor)
  }

  // ---------------------------------------------------------------------------
  // The machine
  // ---------------------------------------------------------------------------

  predicate Settled(job: Job) { job.progress.Delivered? || job.progress.Exhausted? }

  predicate Started(job: Job) { !job.progress.Waiting? }

  predicate Active(job: Job) { job.progress.Ingesting? || job.progress.Pausing? }

  function NewJob(bus: Bus, user: string, payload: string): Job {
    var previous := if user in bus.tails then Some(bus.tails[user]) else None;
    Job(user, payload, Snapshot(bus.ingestors), previous, if previous.Some? then Waiting else Ingesting(1, 0), [])
  }

  /** The answer of the ingestor whose turn it is. */
  function Answered(job: Job, ok: bool): Job
    requires job.progress.Ingesting? && job.progress.done < |job.ingestors|
  {
    var (attempt, done) := (job.progress.attempt, job.progress.done);
    var calls := job.calls + [Call(attempt, job.ingestors[done], ok)];
    if ok then job.(progress := Ingesting(attempt, done + 1), calls := calls)
    else job.(progress := if attempt == INGEST_ATTEMPTS then Exhausted else Pausing(attempt), calls := calls)
  }

  predicate Enabled(bus: Bus, e: Event) {
    match e
    case Register(_, _) => true
    case Unregister(_) => true
    case Enqueue(_, _) => true
    case Start(j) =>
      && j < |bus.jobs| && bus.jobs[j].progress.Waiting? && bus.jobs[j].previous.Some?
      && bus.jobs[j].previous.value < |bus.jobs| && Settled(bus.jobs[bus.jobs[j].previous.value])
    case Answer(j, _) =>
      j < |bus.jobs| && bus.jobs[j].progress.Ingesting? && bus.jobs[j].progress.done < |bus.jobs[j].ingestors|
    case Deliver(j) =>
      j < |bus.jobs| && bus.jobs[j].progress.Ingesting? && bus.jobs[j].progress.done == |bus.jobs[j].ingestors|
    case Retry(j) => j < |bus.jobs| && bus.jobs[j].progress.Pausing?
    case ClearQueue(j) => j < |bus.jobs| && Settled(bus.jobs[j])
  }

  function Apply(bus: Bus, e: Event): Bus
    requires Enabled(bus, e)
  {
    match e
    case Register(ingestor, priority) =>
      bus.(ingestors := Inserted(bus.ingestors, Entry(bus.nextId, ingestor, priority), RankOf), nextId := bus.nextId + 1)
    case Unregister(id) => bus.(ingestors := Without(bus.ingestors, id))
    case Enqueue(user, payload) =>
      bus.(jobs := bus.jobs + [NewJob(bus, user, payload)], tails := bus.tails[user := |bus.jobs|])
    case Start(j) => bus.(jobs := bus.jobs[j := bus.jobs[j].(progress := Ingesting(1, 0))])
    case Answer(j, ok) => bus.(jobs := bus.jobs[j := Answered(bus.jobs[j], ok)])
    case Deliver(j) =>
      bus.(jobs := bus.jobs[j := bus.jobs[j].(progress := Delivered(bus.jobs[j].progress.attempt))],
           delivered := bus.delivered + [j])
    case Retry(j) => bus.(jobs := bus.jobs[j := bus.jobs[j].(progress := Ingesting(bus.jobs[j].progress.attempt + 1, 0))])
    case ClearQueue(j) =>
      var user := bus.jobs[j].user;
      if user in bus.tails && bus.tails[user] == j then bus.(tails := bus.tails - {user}) else bus
  }

  /** The bus after a schedule; a step that is not due does nothing. */
  function After(events: seq<Event>): Bus {
    if events == [] then IDLE
    else
      var before := After(events[..|events| - 1]);
      if Enabled(before, events[|events| - 1]) then Apply(before, events[|events| - 1]) else before
  }

  // ---------------------------------------------------------------------------
  // The bus object
  // ---------------------------------------------------------------------------

  class OrderEventsService {
    var ingestors: seq<Entry>
    var nextId: nat
    var userQueues: map<string, nat>
    var jobs: seq<Job>
    var delivered: seq<nat>

    constructor ()
      ensures Contents() == IDLE
    {
      ingestors, nextId, userQueues, jobs, delivered := [], 0, map[], [], [];
    }

    function Contents(): Bus
      reads this
    {
      Bus(ingestors, nextId, userQueues, jobs, delivered)
    }

    method RegisterIngestor(ingestor: IngestorId, priority: int) returns (id: nat)
      requires ByPriority(ingestors)
      modifies this
      ensures Contents() == Apply(old(Contents()), Register(ingestor, priority)) && id == old(nextId)
      ensures ByPriority(ingestors)
    {
      id := nextId;
      var k := |ingestors|;
      var entry := Entry(id, ingestor, priority);
      ghost var place := InsertedPlace(ingestors, entry);
      while k > 0 && ingestors[k - 1].priority < priority
        invariant place <= k <= |ingestors| && Contents() == old(Contents())
      {
        k := k - 1;
      }
      ingestors, nextId := ingestors[..k] + [entry] + ingestors[k..], nextId + 1;
    }

    method UnregisterIngestor(id: nat)
      modifies this
      ensures Contents() == Apply(old(Contents()), Unregister(id))
    {
      var i := 0;
      while i < |ingestors| && ingestors[i].id != id
        invariant i <= |ingestors| && Contents() == old(Contents())
        invariant forall k :: 0 <= k < i ==> ingestors[k].id != id
      {
        i := i + 1;
      }
      WithoutAt(ingestors, id, i);
      if i < |ingestors| {
        ingestors := ingestors[..i] + ingestors[i + 1..];
      }
    }

    method EnqueueEvent(user: string, payload: string) returns (current: nat)
      modifies this
      ensures Contents() == Apply(old(Contents()), Enqueue(user, payload)) && current == old(|jobs|)
    {
      var previous := if user in userQueues then Some(userQueues[user]) else None;
      current := |jobs|;
      jobs := jobs + [Job(user, payload, Snapshot(ingestors), previous, if previous.Some? then Waiting else Ingesting(1, 0), [])];
      userQueues := userQueues[user := current];
    }

    method ClearQueueOf(current: nat)
      requires current < |jobs| && Settled(jobs[current])
      modifies this
      ensures Contents() == Apply(old(Contents()), ClearQueue(current))
    {
      var user := jobs[current].user;
      if user in userQueues && userQueues[user] == current {
        userQueues := userQueues - {user};
      }
    }
  }

  // ---------------------------------------------------------------------------
  // One job's attempts
  // ---------------------------------------------------------------------------

  /** A full pass over the ingestors, in order, on one attempt. */
  function FullPass(ingestors: seq<IngestorId>, attempt: nat): (calls: seq<Call>)
    ensures |calls| == |ingestors|
    ensures forall i :: 0 <= i < |calls| ==> calls[i] == Call(attempt, ingestors[i], true)
  {
    seq(|ingestors|, i requires 0 <= i < |ingestors| => Call(attempt, ingestors[i], true))
  }

  /** A pass that fails at the ingestor in position k, after the ones before it succeeded. */
  function BrokenPass(ingestors: seq<IngestorId>, attempt: nat, k: nat): (calls: seq<Call>)
    requires k < |ingestors|
    ensures |calls| == k + 1
  {
    FullPass(ingestors[..k], attempt) + [Call(attempt, ingestors[k], false)]
  }

  /** One broken pass after another: attempts 1, 2, up to the number of failures. */
  ghost predicate FailedPasses(ingestors: seq<IngestorId>, calls: seq<Call>, failures: nat)
    decreases failures
  {
    if failures == 0 then calls == []
    else exists k: nat :: k < |ingestors| && EndsBroken(ingestors, calls, failures, k)
  }

  ghost predicate EndsBroken(ingestors: seq<IngestorId>, calls: seq<Call>, failures: nat, k: nat)
    requires k < |ingestors| && failures > 0
    decreases failures, 0
  {
    && |calls| >= k + 1
    && calls[|calls| - k - 1..] == BrokenPass(ingestors, failures, k)
    && FailedPasses(ingestors, calls[..|calls| - k - 1], failures - 1)
  }

  /** The last calls of a job are a clean pass over these ingestors; everything before is failed attempts. */
  ghost predicate EndsWithPass(calls: seq<Call>, all: seq<IngestorId>, done: seq<IngestorId>, attempt: nat) {
    && attempt >= 1 && |done| <= |calls|
    && calls[|calls| - |done|..] == FullPass(done, attempt)
    && FailedPasses(all, calls[..|calls| - |done|], attempt - 1)
  }

  ghost predicate JobOk(job: Job) {
    match job.progress
    case Waiting => job.calls == []
    case Ingesting(attempt, done) =>
      && 1 <= attempt <= INGEST_ATTEMPTS && done <= |job.ingestors|
      && EndsWithPass(job.calls, job.ingestors, job.ingestors[..done], attempt)
    case Pausing(attempt) => 1 <= attempt < INGEST_ATTEMPTS && FailedPasses(job.ingestors, job.calls, attempt)
    case Delivered(attempt) => 1 <= attempt <= INGEST_ATTEMPTS && EndsWithPass(job.calls, job.ingestors, job.ingestors, attempt)
    case Exhausted => FailedPasses(job.ingestors, job.calls, INGEST_ATTEMPTS)
  }

  lemma AnsweredIsOk(job: Job, ok: bool)
    requires JobOk(job) && job.progress.Ingesting? && job.progress.done < |job.ingestors|
    ensures JobOk(Answered(job, ok))
  {
    var (attempt, k) := (job.progress.attempt, job.progress.done);
    var calls := Answered(job, ok).calls;
    var start := |job.calls| - k;
    assert calls[..start] == job.calls[..start];
    if ok {
      assert calls[start..] == FullPass(job.ingestors[..k + 1], attempt);
    } else {
      assert calls[start..] == BrokenPass(job.ingestors, attempt, k);
      assert |calls| - k - 1 == start;
      assert EndsBroken(job.ingestors, calls, attempt, k);
    }
  }

  lemma FreshAttemptIsOk(job: Job, attempt: nat)
    requires 1 <= attempt <= INGEST_ATTEMPTS && FailedPasses(job.ingestors, job.calls, attempt - 1)
    ensures JobOk(job.(progress := Ingesting(attempt, 0)))
  {
    assert job.calls[..|job.calls|] == job.calls;
    assert job.ingestors[..0] == [];
  }

  lemma DeliveredIsOk(job: Job)
    requires JobOk(job) && job.progress.Ingesting? && job.progress.done == |job.ingestors|
    ensures JobOk(job.(progress := Delivered(job.progress.attempt)))
  {
    assert job.ingestors[..|job.ingestors|] == job.ingestors;
  }

  /** Every ingestor accepts on this attempt. */
  ghost predicate Clean(ingestors: seq<IngestorId>, answers: (nat, nat) -> bool, attempt: nat) {
    forall k: nat :: k < |ingestors| ==> answers(attempt, k)
  }

  /** One attempt: it stops at the first refusal. */
  method RunPass(job: Job, answers: (nat, nat) -> bool) returns (after: Job)
    requires JobOk(job) && job.progress.Ingesting? && job.progress.done == 0
    ensures JobOk(after) && after.ingestors == job.ingestors && after.user == job.user && after.payload == job.payload
    ensures after.previous == job.previous
    ensures var attempt := job.progress.attempt;
            after.progress == if Clean(job.ingestors, answers, attempt) then Ingesting(attempt, |job.ingestors|)
                              else if attempt == INGEST_ATTEMPTS then Exhausted else Pausing(attempt)
  {
    hide EndsWithPass, FailedPasses;
    after := job;
    var attempt := job.progress.attempt;
    var k := 0;
    while k < |job.ingestors|
      invariant k <= |job.ingestors| && JobOk(after) && after == job.(progress := Ingesting(attempt, k), calls := after.calls)
      invariant forall i: nat :: i < k ==> answers(attempt, i)
    {
      var ok := answers(attempt, k);
      AnsweredIsOk(after, ok);
      after := Answered(after, ok);
      if !ok { return; }
      k := k + 1;
    }
  }

  /**
   The attempts of one job against ingestors that answer as given: it is delivered exactly when one of
   the first three passes has no failure, and its calls are the failed passes followed by that pass.
   */
  method ProcessWithRetry(ingestors: seq<IngestorId>, answers: (nat, nat) -> bool)
    returns (sent: bool, calls: seq<Call>, attempts: nat)
    ensures 1 <= attempts <= INGEST_ATTEMPTS
    ensures sent <==> exists a: nat :: 1 <= a <= INGEST_ATTEMPTS && Clean(ingestors, answers, a)
    ensures sent ==> Clean(ingestors, answers, attempts)
    ensures forall a: nat :: 1 <= a < attempts ==> !Clean(ingestors, answers, a)
    ensures if sent then EndsWithPass(calls, ingestors, ingestors, attempts) else FailedPasses(ingestors, calls, INGEST_ATTEMPTS)
  {
    hide EndsWithPass, FailedPasses, Clean;
    var job := Job("", "", ingestors, None, Ingesting(1, 0), []);
    assert FailedPasses(ingestors, [], 0) by { NoFailures(ingestors); }
    FreshAttemptIsOk(job, 1);
    attempts := 1;
    while true
      invariant 1 <= attempts <= INGEST_ATTEMPTS && job.ingestors == ingestors
      invariant job.progress == Ingesting(attempts, 0) && JobOk(job)
      invariant forall a: nat :: 1 <= a < attempts ==> !Clean(ingestors, answers, a)
      decreases INGEST_ATTEMPTS - attempts
    {
      job := RunPass(job, answers);
      if job.progress.Ingesting? {
        DeliveredIsOk(job);
        return true, job.calls, attempts;
      }
      if attempts == INGEST_ATTEMPTS {
        return false, job.calls, attempts;
      }
      attempts := attempts + 1;
      FreshAttemptIsOk(job, attempts);
      job := job.(progress := Ingesting(attempts, 0));
    }
  }

  lemma NoFailures(ingestors: seq<IngestorId>)
    ensures FailedPasses(ingestors, [], 0)
  {
  }

  // ---------------------------------------------------------------------------
  // Per-user order
  // ---------------------------------------------------------------------------

  /** Jobs of one user between two positions. */
  predicate NoneBetween(bus: Bus, user: string, i: int, j: nat)
    requires j <= |bus.jobs| && -1 <= i
  {
    forall k :: i < k < j ==> bus.jobs[k].user != user
  }

  ghost predicate AllSettled(bus: Bus, user: string, j: nat)
    requires j <= |bus.jobs|
  {
    forall k :: 0 <= k < j && bus.jobs[k].user == user ==> Settled(bus.jobs[k])
  }

  /** A job waits for the user's job right before it, and has started only after all earlier ones settled. */
  ghost predicate ChainOk(bus: Bus, j: nat)
    requires j < |bus.jobs|
  {
    var job := bus.jobs[j];
    && JobOk(job)
    && (Started(job) ==> AllSettled(bus, job.user, j))
    && (job.progress.Waiting? ==>
          && job.previous.Some? && job.previous.value < j && bus.jobs[job.previous.value].user == job.user
          && NoneBetween(bus, job.user, job.previous.value, j))
  }

  /** The tail of a user's chain is the user's last job; without a tail nothing of the user is unsettled. */
  ghost predicate TailOk(bus: Bus, user: string) {
    if user in bus.tails then
      && bus.tails[user] < |bus.jobs| && bus.jobs[bus.tails[user]].user == user
      && NoneBetween(bus, user, bus.tails[user], |bus.jobs|)
    else AllSettled(bus, user, |bus.jobs|)
  }

  /** The delivered list names each delivered job once, and each user's in enqueue order. */
  ghost predicate DeliveredOk(bus: Bus) {
    && (forall p :: 0 <= p < |bus.delivered| ==> bus.delivered[p] < |bus.jobs| && bus.jobs[bus.delivered[p]].progress.Delivered?)
    && (forall j :: 0 <= j < |bus.jobs| && bus.jobs[j].progress.Delivered? ==> j in bus.delivered)
    && (forall p, q :: 0 <= p < q < |bus.delivered| ==> bus.delivered[p] != bus.delivered[q])
    && (forall p, q :: 0 <= p < q < |bus.delivered| && bus.jobs[bus.delivered[p]].user == bus.jobs[bus.delivered[q]].user
          ==> bus.delivered[p] < bus.delivered[q])
  }

  ghost predicate BusOk(bus: Bus) {
    && ByPriority(bus.ingestors)
    && (forall j :: 0 <= j < |bus.jobs| ==> ChainOk(bus, j))
    && (forall user :: TailOk(bus, user))
    && DeliveredOk(bus)
  }

  lemma EmptyBusIsOk()
    ensures BusOk(IDLE)
  {
  }

  /** The job moved on by one step of its own. */
  ghost predicate Moved(before: Job, after: Job) {
    && !Settled(before) && Started(after) && JobOk(after)
    && after.user == before.user && after.ingestors == before.ingestors
  }

  lemma MovedJobKeepsChains(bus: Bus, after: Bus, j: nat)
    requires BusOk(bus) && j < |bus.jobs| && |after.jobs| == |bus.jobs| && after.jobs == bus.jobs[j := after.jobs[j]]
    requires Moved(bus.jobs[j], after.jobs[j]) && AllSettled(bus, bus.jobs[j].user, j)
    requires after.tails == bus.tails
    ensures forall k :: 0 <= k < |after.jobs| ==> ChainOk(after, k)
    ensures forall user :: TailOk(after, user)
  {
    hide JobOk, DeliveredOk, ByPriority;
    forall k | 0 <= k < |after.jobs| ensures ChainOk(after, k) {
      assert ChainOk(bus, k);
      MovedKeepsSettled(bus, after, j, bus.jobs[k].user, k);
    }
    forall user ensures TailOk(after, user) {
      assert TailOk(bus, user);
      MovedKeepsSettled(bus, after, j, user, |bus.jobs|);
    }
  }

  lemma MovedKeepsSettled(bus: Bus, after: Bus, j: nat, user: string, k: nat)
    requires j < |bus.jobs| && |after.jobs| == |bus.jobs| && after.jobs == bus.jobs[j := after.jobs[j]]
    requires !Settled(bus.jobs[j]) && after.jobs[j].user == bus.jobs[j].user && k <= |bus.jobs|
    ensures AllSettled(bus, user, k) ==> AllSettled(after, user, k)
    ensures forall i: int :: i >= -1 && NoneBetween(bus, user, i, k) ==> NoneBetween(after, user, i, k)
  {
  }

  lemma StartIsInOrder(bus: Bus, j: nat)
    requires BusOk(bus) && Enabled(bus, Start(j))
    ensures AllSettled(bus, bus.jobs[j].user, j)
  {
    assert ChainOk(bus, j);
    assert ChainOk(bus, bus.jobs[j].previous.value);
  }

  lemma DeliveryKeepsList(bus: Bus, j: nat)
    requires BusOk(bus) && Enabled(bus, Deliver(j))
    ensures DeliveredOk(Apply(bus, Deliver(j)))
  {
    hide JobOk, TailOk, ByPriority;
    var after := Apply(bus, Deliver(j));
    forall p | 0 <= p < |bus.delivered|
      ensures bus.delivered[p] != j && (bus.jobs[bus.delivered[p]].user == bus.jobs[j].user ==> bus.delivered[p] < j)
    {
      var q := bus.delivered[p];
      assert bus.jobs[q].progress.Delivered? && ChainOk(bus, q);
    }
    forall k | 0 <= k < |after.jobs| && after.jobs[k].progress.Delivered? ensures k in after.delivered {
      assert k != j ==> k in bus.delivered;
      assert after.delivered[|bus.delivered|] == j;
    }
  }

  lemma OtherMoveKeepsList(bus: Bus, after: Bus, j: nat)
    requires BusOk(bus) && j < |bus.jobs| && |after.jobs| == |bus.jobs| && after.jobs == bus.jobs[j := after.jobs[j]]
    requires Moved(bus.jobs[j], after.jobs[j]) && !after.jobs[j].progress.Delivered? && after.delivered == bus.delivered
    ensures DeliveredOk(after)
  {
    hide JobOk, TailOk, ByPriority, ChainOk;
  }

  lemma MoveKeepsBus(bus: Bus, e: Event)
    requires BusOk(bus) && Enabled(bus, e) && (e.Start? || e.Answer? || e.Deliver? || e.Retry?)
    ensures BusOk(Apply(bus, e))
  {
    hide ByPriority, TailOk, DeliveredOk, FailedPasses, EndsWithPass;
    var j := e.job;
    var job := bus.jobs[j];
    assert ChainOk(bus, j);
    match e {
      case Start(_) =>
        StartIsInOrder(bus, j);
        assert FailedPasses(job.ingestors, job.calls, 0) by { NoFailures(job.ingestors); }
        FreshAttemptIsOk(job, 1);
      case Answer(_, ok) => AnsweredIsOk(job, ok);
      case Deliver(_) => DeliveredIsOk(job);
      case Retry(_) => FreshAttemptIsOk(job, job.progress.attempt + 1);
    }
    var after := Apply(bus, e);
    assert Moved(job, after.jobs[j]);
    MovedJobKeepsChains(bus, after, j);
    if e.Deliver? { DeliveryKeepsList(bus, j); } else { OtherMoveKeepsList(bus, after, j); }
  }

  lemma EnqueueKeepsBus(bus: Bus, user: string, payload: string)
    requires BusOk(bus)
    ensures BusOk(Apply(bus, Enqueue(user, payload)))
  {
    hide ByPriority, FailedPasses, EndsWithPass;
    var after := Apply(bus, Enqueue(user, payload));
    var n := |bus.jobs|;
    assert TailOk(bus, user);
    forall k | 0 <= k < n ensures ChainOk(after, k) {
      assert ChainOk(bus, k);
    }
    assert JobOk(after.jobs[n]) by {
      assert FailedPasses(after.jobs[n].ingestors, [], 0) by { NoFailures(after.jobs[n].ingestors); }
      FreshAttemptIsOk(after.jobs[n].(progress := Waiting), 1);
    }
    assert ChainOk(after, n);
    forall u ensures TailOk(after, u) {
      assert TailOk(bus, u);
    }
    assert DeliveredOk(after) by { assert DeliveredOk(bus); }
  }

  lemma ClearKeepsBus(bus: Bus, j: nat)
    requires BusOk(bus) && Enabled(bus, ClearQueue(j))
    ensures BusOk(Apply(bus, ClearQueue(j)))
  {
    hide ByPriority, JobOk;
    var after := Apply(bus, ClearQueue(j));
    forall k | 0 <= k < |after.jobs| ensures ChainOk(after, k) {
      assert ChainOk(bus, k);
    }
    forall u ensures TailOk(after, u) {
      assert TailOk(bus, u) && ChainOk(bus, j);
    }
    assert DeliveredOk(after) by { assert DeliveredOk(bus); }
  }

  lemma RegistryKeepsBus(bus: Bus, entries: seq<Entry>, nextId: nat)
    requires BusOk(bus) && ByPriority(entries)
    ensures BusOk(bus.(ingestors := entries, nextId := nextId))
  {
    hide JobOk;
    var after := bus.(ingestors := entries, nextId := nextId);
    forall k | 0 <= k < |after.jobs| ensures ChainOk(after, k) { assert ChainOk(bus, k); }
    forall u ensures TailOk(after, u) { assert TailOk(bus, u); }
    assert DeliveredOk(after) by { assert DeliveredOk(bus); }
  }

  lemma StepKeepsBus(bus: Bus, e: Event)
    requires BusOk(bus) && Enabled(bus, e)
    ensures BusOk(Apply(bus, e))
  {
    hide ChainOk, TailOk, DeliveredOk;
    match e
    case Register(ingestor, priority) =>
      var k := InsertedPlace(bus.ingestors, Entry(bus.nextId, ingestor, priority));
      RegistryKeepsBus(bus, Inserted(bus.ingestors, Entry(bus.nextId, ingestor, priority), RankOf), bus.nextId + 1);
    case Unregister(id) =>
      WithoutKeepsOrder(bus.ingestors, id);
      RegistryKeepsBus(bus, Without(bus.ingestors, id), bus.nextId);
    case Enqueue(user, payload) => EnqueueKeepsBus(bus, user, payload);
    case ClearQueue(j) => ClearKeepsBus(bus, j);
    case Start(_) => MoveKeepsBus(bus, e);
    case Answer(_, _) => MoveKeepsBus(bus, e);
    case Deliver(_) => MoveKeepsBus(bus, e);
    case Retry(_) => MoveKeepsBus(bus, e);
  }

  lemma {:induction false} EveryBusIsOk(events: seq<Event>)
    ensures BusOk(After(events))
  {
    hide BusOk, Apply, Enabled;
    if events == [] {
      EmptyBusIsOk();
    } else {
      var before := After(events[..|events| - 1]);
      EveryBusIsOk(events[..|events| - 1]);
      if Enabled(before, events[|events| - 1]) { StepKeepsBus(before, events[|events| - 1]); }
    }
  }

  // ---------------------------------------------------------------------------
  // What every run guarantees
  // ---------------------------------------------------------------------------

  /** One user's events are handled one at a time and in enqueue order. */
  lemma LaterJobWaitsForEarlier(events: seq<Event>, i: nat, j: nat)
    requires i < j < |After(events).jobs| && After(events).jobs[i].user == After(events).jobs[j].user
    ensures Started(After(events).jobs[j]) ==> Settled(After(events).jobs[i])
    ensures !(Active(After(events).jobs[i]) && Active(After(events).jobs[j]))
  {
    EveryBusIsOk(events);
    assert ChainOk(After(events), j);
  }

  /** Subscribers see each event at most once, and a user's events in enqueue order. */
  lemma DeliveriesKeepUserOrder(events: seq<Event>, p: nat, q: nat)
    requires p < q < |After(events).delivered|
    ensures var bus := After(events);
            && bus.delivered[p] < |bus.jobs| && bus.delivered[q] < |bus.jobs| && bus.delivered[p] != bus.delivered[q]
            && (bus.jobs[bus.delivered[p]].user == bus.jobs[bus.delivered[q]].user ==> bus.delivered[p] < bus.delivered[q])
  {
    hide After;
    EveryBusIsOk(events);
  }

  /**
   An event is out exactly when its last calls are one unbroken pass over the ingestors it was
   enqueued with, in their order, on one attempt; before that come only broken passes, two at most.
   */
  lemma SeenMeansIngested(events: seq<Event>, j: nat)
    requires j < |After(events).jobs|
    ensures var job := After(events).jobs[j];
            j in After(events).delivered <==>
            Settled(job) && (exists attempt: nat :: 1 <= attempt <= INGEST_ATTEMPTS
                               && EndsWithPass(job.calls, job.ingestors, job.ingestors, attempt))
  {
    hide After;
    EveryBusIsOk(events);
    var bus := After(events);
    var job := bus.jobs[j];
    assert ChainOk(bus, j);
    if job.progress.Exhausted? {
      forall attempt: nat | 1 <= attempt <= INGEST_ATTEMPTS
        ensures !EndsWithPass(job.calls, job.ingestors, job.ingestors, attempt)
      {
        BrokenIsNotClean(job.ingestors, job.calls, attempt);
      }
    }
  }

  /** Three broken passes are no clean one. */
  lemma BrokenIsNotClean(ingestors: seq<IngestorId>, calls: seq<Call>, attempt: nat)
    requires FailedPasses(ingestors, calls, INGEST_ATTEMPTS)
    ensures !EndsWithPass(calls, ingestors, ingestors, attempt)
  {
    var k: nat :| k < |ingestors| && EndsBroken(ingestors, calls, INGEST_ATTEMPTS, k);
    var last := calls[|calls| - 1];
    assert calls[|calls| - k - 1..][k] == last && !last.ok;
    var clean := FullPass(ingestors, attempt);
    assert |ingestors| <= |calls| ==> calls[|calls| - |ingestors|..][|ingestors| - 1] == last;
    assert clean[|ingestors| - 1].ok;
  }

  function Refusals(calls: seq<Call>): nat {
    if calls == [] then 0 else Refusals(calls[..|calls| - 1]) + if calls[|calls| - 1].ok then 0 else 1
  }

  lemma {:induction false} RefusalsOf(ingestors: seq<IngestorId>, calls: seq<Call>, failures: nat)
    requires FailedPasses(ingestors, calls, failures)
    ensures Refusals(calls) == failures
    decreases failures
  {
    if failures > 0 {
      var k: nat :| k < |ingestors| && EndsBroken(ingestors, calls, failures, k);
      var front := calls[..|calls| - k - 1];
      RefusalsOf(ingestors, front, failures - 1);
      var clean := FullPass(ingestors[..k], failures);
      assert calls[..|calls| - 1] == front + clean by {
        assert calls == front + BrokenPass(ingestors, failures, k);
      }
      assert calls[|calls| - 1] == BrokenPass(ingestors, failures, k)[k] by {
        assert calls[|calls| - k - 1..][k] == calls[|calls| - 1];
      }
      RefusalsOfPass(front, clean);
    }
  }

  lemma {:induction false} RefusalsOfPass(front: seq<Call>, clean: seq<Call>)
    requires forall i :: 0 <= i < |clean| ==> clean[i].ok
    ensures Refusals(front + clean) == Refusals(front)
  {
    if clean == [] {
      assert front + clean == front;
    } else {
      assert (front + clean)[..|front + clean| - 1] == front + clean[..|clean| - 1];
      RefusalsOfPass(front, clean[..|clean| - 1]);
    }
  }

  /** A job is refused at most three times, and given up exactly at the third refusal. */
  lemma AtMostThreeRefusals(events: seq<Event>, j: nat)
    requires j < |After(events).jobs|
    ensures var job := After(events).jobs[j];
            Refusals(job.calls) <= 3 && (Refusals(job.calls) == 3 <==> job.progress.Exhausted?)
  {
    hide After;
    EveryBusIsOk(events);
    var job := After(events).jobs[j];
    assert ChainOk(After(events), j);
    match job.progress
    case Waiting =>
    case Ingesting(attempt, done) => PassRefusals(job, job.ingestors[..done], attempt);
    case Pausing(attempt) => RefusalsOf(job.ingestors, job.calls, attempt);
    case Delivered(attempt) => PassRefusals(job, job.ingestors, attempt);
    case Exhausted => RefusalsOf(job.ingestors, job.calls, INGEST_ATTEMPTS);
  }

  lemma PassRefusals(job: Job, done: seq<IngestorId>, attempt: nat)
    requires EndsWithPass(job.calls, job.ingestors, done, attempt)
    ensures Refusals(job.calls) == attempt - 1
  {
    var front := job.calls[..|job.calls| - |done|];
    RefusalsOf(job.ingestors, front, attempt - 1);
    RefusalsOfPass(front, FullPass(done, attempt));
    assert job.calls == front + FullPass(done, attempt);
  }

  /** An event handled or given up never stops the user's queue: the first unsettled job always has a step of its own. */
  lemma FirstUnsettledCanMove(events: seq<Event>, j: nat)
    requires j < |After(events).jobs| && !Settled(After(events).jobs[j])
    requires AllSettled(After(events), After(events).jobs[j].user, j)
    ensures Enabled(After(events), Start(j)) || Enabled(After(events), Answer(j, true))
         || Enabled(After(events), Deliver(j)) || Enabled(After(events), Retry(j))
  {
    hide After;
    EveryBusIsOk(events);
    assert ChainOk(After(events), j);
  }

  /** The steps a job still has before it settles, whatever its ingestors answer. */
  function StepsLeft(job: Job): nat {
    var pass := |job.ingestors| + 2;
    match job.progress
    case Waiting => 3 * pass + 1
    case Ingesting(attempt, done) =>
      if attempt <= INGEST_ATTEMPTS && done <= |job.ingestors| then (INGEST_ATTEMPTS - attempt) * pass + pass - done - 1 else 0
    case Pausing(attempt) => if attempt < INGEST_ATTEMPTS then (INGEST_ATTEMPTS - attempt) * pass else 0
    case Delivered(_) => 0
    case Exhausted => 0
  }

  /** So every job settles after boundedly many steps of its own. */
  lemma OwnStepsRunOut(events: seq<Event>, e: Event)
    requires Enabled(After(events), e) && (e.Start? || e.Answer? || e.Deliver? || e.Retry?)
    ensures var bus := After(events);
            e.job < |bus.jobs| && StepsLeft(Apply(bus, e).jobs[e.job]) < StepsLeft(bus.jobs[e.job])
  {
    hide After, FailedPasses, EndsWithPass;
    EveryBusIsOk(events);
    assert ChainOk(After(events), e.job);
  }

  /** The ingestors of a job are those registered when it was enqueued, whatever is registered later. */
  lemma {:induction false} SnapshotIsKept(events: seq<Event>, later: seq<Event>, j: nat)
    requires j < |After(events).jobs|
    ensures j < |After(events + later).jobs|
    ensures After(events + later).jobs[j].ingestors == After(events).jobs[j].ingestors
    ensures After(events + later).jobs[j].user == After(events).jobs[j].user
    ensures After(events + later).jobs[j].payload == After(events).jobs[j].payload
  {
    hide Apply, Enabled;
    if later == [] {
      assert events + later == events;
    } else {
      var n := |later| - 1;
      SnapshotIsKept(events, later[..n], j);
      assert (events + later)[..|events + later| - 1] == events + later[..n];
      var before := After(events + later[..n]);
      if Enabled(before, later[n]) { StepKeepsJob(before, later[n], j); }
    }
  }

  lemma StepKeepsJob(bus: Bus, e: Event, j: nat)
    requires Enabled(bus, e) && j < |bus.jobs|
    ensures j < |Apply(bus, e).jobs|
    ensures Apply(bus, e).jobs[j].ingestors == bus.jobs[j].ingestors
    ensures Apply(bus, e).jobs[j].user == bus.jobs[j].user && Apply(bus, e).jobs[j].payload == bus.jobs[j].payload
  {
  }

  // ---------------------------------------------------------------------------
  // Who is called
  // ---------------------------------------------------------------------------

  /** Higher priorities first, earlier registrations first among equals. */
  predicate Ahead(a: Entry, b: Entry) {
    a.id != b.id && (a.priority > b.priority || (a.priority == b.priority && a.id < b.id))
  }

  /** The entries leave no choice of order. */
  ghost predicate RegistryOk(entries: seq<Entry>, nextId: nat) {
    && (forall i, j :: 0 <= i < j < |entries| ==> Ahead(entries[i], entries[j]))
    && (forall entry :: entry in entries ==> entry.id < nextId)
  }

  lemma RegistryByPriority(entries: seq<Entry>, nextId: nat)
    requires RegistryOk(entries, nextId)
    ensures ByPriority(entries)
  {
    forall i, j | 0 <= i < j < |entries| ensures entries[i].priority >= entries[j].priority { assert Ahead(entries[i], entries[j]); }
  }

  lemma SpliceHas(entries: seq<Entry>, k: nat, entry: Entry)
    requires k <= |entries|
    ensures forall other :: other in entries[..k] + [entry] + entries[k..] <==> other in entries || other == entry
  {
    assert entries == entries[..k] + entries[k..];
  }

  lemma RegisteredKeeps(entries: seq<Entry>, nextId: nat, ingestor: IngestorId, priority: int)
    requires RegistryOk(entries, nextId)
    ensures var after := Inserted(entries, Entry(nextId, ingestor, priority), RankOf);
            && RegistryOk(after, nextId + 1)
            && forall entry :: entry in after <==> entry in entries || entry == Entry(nextId, ingestor, priority)
  {
    hide Inserted, ByPriority, Ahead;
    var entry := Entry(nextId, ingestor, priority);
    RegistryByPriority(entries, nextId);
    var k := InsertedPlace(entries, entry);
    SpliceHas(entries, k, entry);
    forall i | 0 <= i < |entries| ensures if i < k then Ahead(entries[i], entry) else Ahead(entry, entries[i]) {
      assert entries[i] in entries;
      IsAhead(entries[i], entry);
      IsAhead(entry, entries[i]);
    }
    SpliceAhead(entries, k, entry);
  }

  lemma SpliceAhead(entries: seq<Entry>, k: nat, entry: Entry)
    requires k <= |entries| && forall i, j :: 0 <= i < j < |entries| ==> Ahead(entries[i], entries[j])
    requires forall i :: 0 <= i < |entries| ==> if i < k then Ahead(entries[i], entry) else Ahead(entry, entries[i])
    ensures var after := entries[..k] + [entry] + entries[k..]; forall i, j :: 0 <= i < j < |after| ==> Ahead(after[i], after[j])
  {
    hide Ahead;
    var after := entries[..k] + [entry] + entries[k..];
    forall i, j | 0 <= i < j < |after| ensures Ahead(after[i], after[j]) {
      if i != k && j != k { assert Ahead(entries[if i < k then i else i - 1], entries[if j < k then j else j - 1]); }
    }
  }

  lemma IsAhead(a: Entry, b: Entry)
    ensures a.id != b.id && (a.priority > b.priority || (a.priority == b.priority && a.id < b.id)) ==> Ahead(a, b)
    ensures Ahead(a, b) ==> a.id != b.id
  {
  }

  lemma {:induction false} UnregisteredKeeps(entries: seq<Entry>, nextId: nat, id: nat)
    requires RegistryOk(entries, nextId)
    ensures RegistryOk(Without(entries, id), nextId)
    ensures forall entry :: entry in Without(entries, id) <==> entry in entries && entry.id != id
  {
    hide Ahead;
    if entries != [] {
      var (first, rest) := (entries[0], entries[1..]);
      forall entry | entry in rest ensures entry.id != first.id && Ahead(first, entry) {
        var k :| 0 <= k < |rest| && rest[k] == entry;
        assert Ahead(entries[0], entries[k + 1]);
        IsAhead(first, entry);
      }
      RestIsOk(entries, nextId);
      if first.id != id {
        UnregisteredKeeps(rest, nextId, id);
        FrontIsOk(first, Without(rest, id), nextId);
      }
    }
  }

  lemma RestIsOk(entries: seq<Entry>, nextId: nat)
    requires RegistryOk(entries, nextId) && entries != []
    ensures RegistryOk(entries[1..], nextId) && entries[0].id < nextId
    ensures forall entry :: entry in entries <==> entry == entries[0] || entry in entries[1..]
  {
    hide Ahead;
  }

  lemma FrontIsOk(first: Entry, rest: seq<Entry>, nextId: nat)
    requires RegistryOk(rest, nextId) && first.id < nextId && forall entry :: entry in rest ==> Ahead(first, entry)
    ensures RegistryOk([first] + rest, nextId)
    ensures forall entry :: entry in [first] + rest <==> entry == first || entry in rest
  {
    hide Ahead;
  }

  /** Entry number id is registered: it was, and nobody unregistered it since. */
  ghost predicate Registered(events: seq<Event>, entry: Entry)
    decreases |events|
  {
    events != [] &&
    var (earlier, e) := (events[..|events| - 1], events[|events| - 1]);
    || (e.Register? && entry == Entry(Registrations(earlier), e.ingestor, e.priority))
    || (!(e.Unregister? && e.id == entry.id) && Registered(earlier, entry))
  }

  function Registrations(events: seq<Event>): nat {
    if events == [] then 0 else Registrations(events[..|events| - 1]) + if events[|events| - 1].Register? then 1 else 0
  }

  /** The registry holds exactly the entries registered and not unregistered, in the one order there is. */
  lemma {:induction false} RegistryIs(events: seq<Event>)
    ensures var bus := After(events);
            && bus.nextId == Registrations(events) && RegistryOk(bus.ingestors, bus.nextId)
            && forall entry :: entry in bus.ingestors <==> Registered(events, entry)
    decreases |events|
  {
    hide RegistryOk, Inserted, Without;
    if events == [] {
      NothingRegistered();
    } else {
      var (before, e) := (After(events[..|events| - 1]), events[|events| - 1]);
      RegistryIs(events[..|events| - 1]);
      if e.Register? {
        RegisteredKeeps(before.ingestors, before.nextId, e.ingestor, e.priority);
      } else if e.Unregister? {
        UnregisteredKeeps(before.ingestors, before.nextId, e.id);
      }
    }
  }

  lemma NothingRegistered()
    ensures RegistryOk([], 0)
  {
  }

  /** An event enqueued now is for the ingestors registered now; it starts at once exactly when the user has no tail. */
  lemma EnqueuedJob(events: seq<Event>, user: string, payload: string)
    ensures var (bus, after) := (After(events), After(events + [Enqueue(user, payload)])); var n := |bus.jobs|;
            && |after.jobs| == n + 1 && after.jobs[..n] == bus.jobs && after.tails == bus.tails[user := n]
            && var job := after.jobs[n];
            && job.user == user && job.payload == payload && job.calls == [] && |job.ingestors| == |bus.ingestors|
            && (forall i :: 0 <= i < |job.ingestors| ==> job.ingestors[i] == bus.ingestors[i].ingestor)
            && (forall entry :: entry in bus.ingestors <==> Registered(events, entry))
            && job.progress == (if user in bus.tails then Waiting else Ingesting(1, 0))
            && (user in bus.tails ==> job.previous == Some(bus.tails[user]))
  {
    hide Registered;
    RegistryIs(events);
    assert (events + [Enqueue(user, payload)])[..|events|] == events;
  }

  /** A settled job's tail goes exactly when no later event of the user took its place; nothing else changes. */
  lemma ClearedTail(events: seq<Event>, j: nat)
    requires j < |After(events).jobs| && Settled(After(events).jobs[j])
    ensures var (bus, after) := (After(events), After(events + [ClearQueue(j)])); var user := bus.jobs[j].user;
            && after.tails == (if NoneBetween(bus, user, j, |bus.jobs|) then bus.tails - {user} else bus.tails)
            && after.jobs == bus.jobs && after.ingestors == bus.ingestors && after.delivered == bus.delivered
  {
    hide BusOk, Apply, NoneBetween;
    EveryBusIsOk(events);
    assert (events + [ClearQueue(j)])[..|events|] == events;
    assert After(events + [ClearQueue(j)]) == Apply(After(events), ClearQueue(j));
    ClearMeans(After(events), j);
  }

  lemma ClearMeans(bus: Bus, j: nat)
    requires BusOk(bus) && j < |bus.jobs| && Settled(bus.jobs[j])
    ensures var user := bus.jobs[j].user;
            Apply(bus, ClearQueue(j)) == bus.(tails := if NoneBetween(bus, user, j, |bus.jobs|) then bus.tails - {user} else bus.tails)
  {
    hide BusOk, NoneBetween;
    LastJobIsTail(bus, j);
    var user := bus.jobs[j].user;
    assert user !in bus.tails ==> bus.tails - {user} == bus.tails;
  }

  lemma LastJobIsTail(bus: Bus, j: nat)
    requires BusOk(bus) && j < |bus.jobs| && Settled(bus.jobs[j])
    ensures var user := bus.jobs[j].user; user in bus.tails ==> (bus.tails[user] == j <==> NoneBetween(bus, user, j, |bus.jobs|))
  {
    hide ChainOk, DeliveredOk, ByPriority;
    assert TailOk(bus, bus.jobs[j].user);
  }
}
