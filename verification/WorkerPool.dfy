/**
 mapWithConcurrency: workers pull items from one shared cursor and await each in turn. Between
 two awaits a worker runs alone, so every pull and every settled call is one step.
 */
module WorkerPool {
  datatype Worker = Ready | Busy(item: nat) | Exited | Rejected

  datatype Pool = Pool(items: nat, next: nat, workers: seq<Worker>, done: set<nat>, failed: set<nat>)

  datatype Event = Pull(w: nat) | Fulfil(w: nat) | Reject(w: nat)

  function Start(items: nat, limit: nat): Pool {
    Pool(items, 0, seq(if limit < items then limit else items, _ => Ready), {}, {})
  }

  predicate Enabled(p: Pool, e: Event) {
    && e.w < |p.workers|
    && if e.Pull? then p.workers[e.w].Ready? else p.workers[e.w].Busy?
  }

  function Step(p: Pool, e: Event): Pool
    requires Enabled(p, e)
  {
    match e
    case Pull(w) =>
      if p.next < p.items then p.(workers := p.workers[w := Busy(p.next)], next := p.next + 1)
      else p.(workers := p.workers[w := Exited])
    case Fulfil(w) => p.(workers := p.workers[w := Ready], done := p.done + {p.workers[w].item})
    case Reject(w) => p.(workers := p.workers[w := Rejected], failed := p.failed + {p.workers[w].item})
  }

  ghost predicate Run(pools: seq<Pool>, events: seq<Event>, items: nat, limit: nat) {
    && |pools| == |events| + 1 && pools[0] == Start(items, limit)
    && forall i :: 0 <= i < |events| ==> Enabled(pools[i], events[i]) && pools[i + 1] == Step(pools[i], events[i])
  }

  predicate InFlight(p: Pool, item: nat) {
    exists w :: 0 <= w < |p.workers| && p.workers[w] == Busy(item)
  }

  /** Every item is not yet pulled, held by exactly one worker, or settled; a worker exits only past the last item. */
  ghost predicate PoolOk(p: Pool, items: nat, limit: nat) {
    && p.items == items && |p.workers| == (if limit < items then limit else items) && p.next <= items
    && (forall item: nat :: item < p.next <==> InFlight(p, item) || item in p.done || item in p.failed)
    && (forall item: nat :: InFlight(p, item) ==> item !in p.done && item !in p.failed)
    && p.done !! p.failed
    && (forall v, w :: 0 <= v < w < |p.workers| && p.workers[v].Busy? && p.workers[w].Busy? ==> p.workers[v].item != p.workers[w].item)
    && (forall w :: 0 <= w < |p.workers| && p.workers[w].Exited? ==> p.next == items)
    && (|p.workers| == 0 ==> p.next == 0)
    && (p.failed == {} ==> forall w :: 0 <= w < |p.workers| ==> !p.workers[w].Rejected?)
  }

  lemma StepKeepsPool(p: Pool, e: Event, items: nat, limit: nat)
    requires PoolOk(p, items, limit) && Enabled(p, e)
    ensures PoolOk(Step(p, e), items, limit)
  {
    var q := Step(p, e);
    forall item: nat
      ensures item < q.next <==> InFlight(q, item) || item in q.done || item in q.failed
    {
      if InFlight(p, item) {
        var w :| 0 <= w < |p.workers| && p.workers[w] == Busy(item);
        if w != e.w { assert q.workers[w] == Busy(item); }
      }
      if e.Pull? && p.next < p.items && item == p.next { assert q.workers[e.w] == Busy(item); }
      if InFlight(q, item) {
        var w :| 0 <= w < |q.workers| && q.workers[w] == Busy(item);
        if w != e.w { assert p.workers[w] == Busy(item); }
      }
    }
    forall item: nat | InFlight(q, item)
      ensures item !in q.done && item !in q.failed
    {
      var w :| 0 <= w < |q.workers| && q.workers[w] == Busy(item);
      if w != e.w { assert p.workers[w] == Busy(item) && InFlight(p, item); }
    }
    forall v, w | 0 <= v < w < |q.workers| && q.workers[v].Busy? && q.workers[w].Busy?
      ensures q.workers[v].item != q.workers[w].item
    {
      if v != e.w { assert p.workers[v] == Busy(p.workers[v].item) && InFlight(p, p.workers[v].item); }
      if w != e.w { assert p.workers[w] == Busy(p.workers[w].item) && InFlight(p, p.workers[w].item); }
    }
    if !e.Pull? { assert p.workers[e.w] == Busy(p.workers[e.w].item) && InFlight(p, p.workers[e.w].item); }
  }

  lemma {:induction false} RunKeepsPool(pools: seq<Pool>, events: seq<Event>, items: nat, limit: nat, i: nat)
    requires Run(pools, events, items, limit) && i < |pools|
    ensures PoolOk(pools[i], items, limit)
  {
    if i > 0 {
      RunKeepsPool(pools, events, items, limit, i - 1);
      StepKeepsPool(pools[i - 1], events[i - 1], items, limit);
    }
  }

  predicate Settled(p: Pool) {
    forall w :: 0 <= w < |p.workers| ==> p.workers[w].Exited? || p.workers[w].Rejected?
  }

  /**
   Never more than limit calls at once, however the calls interleave; and when no call rejects,
   a pool that has come to rest has finished every item, unless it was given no worker at all.
   */
  lemma PoolFinishesEverything(pools: seq<Pool>, events: seq<Event>, items: nat, limit: nat, i: nat)
    requires Run(pools, events, items, limit) && i < |pools|
    ensures |pools[i].workers| <= limit
    ensures Settled(pools[i]) && pools[i].failed == {} ==>
              ((forall item: nat :: item < items ==> item in pools[i].done) <==> limit > 0 || items == 0)
  {
    RunKeepsPool(pools, events, items, limit, i);
    var p := pools[i];
    if Settled(p) && p.failed == {} && limit > 0 && items > 0 {
      assert p.workers[0].Exited?;
      forall item: nat | item < items ensures item in p.done { assert item < p.next && !InFlight(p, item); }
    }
    if limit == 0 && items > 0 {
      var first: nat := 0;
      assert !(first < p.next) && !InFlight(p, first) && first !in p.done;
    }
  }

  /** One item starts per pull and none twice: a rejection leaves items behind only once every worker has rejected. */
  lemma LeftoversNeedEveryWorkerRejected(pools: seq<Pool>, events: seq<Event>, items: nat, limit: nat, i: nat)
    requires Run(pools, events, items, limit) && i < |pools| && Settled(pools[i])
    ensures pools[i].next < items ==> forall w :: 0 <= w < |pools[i].workers| ==> pools[i].workers[w].Rejected?
  {
    RunKeepsPool(pools, events, items, limit, i);
  }

  /** A pool is at rest exactly when nobody in it can take a step any more. */
  lemma SettledIffNoStep(p: Pool)
    ensures Settled(p) <==> forall e :: !Enabled(p, e)
  {
    if w :| 0 <= w < |p.workers| && !p.workers[w].Exited? && !p.workers[w].Rejected? {
      if p.workers[w].Ready? { assert Enabled(p, Pull(w)); } else { assert Enabled(p, Fulfil(w)); }
    }
  }

  /**
   What a step does to its own worker, and that it leaves every other one alone: a pull takes the next
   item in order, or ends the worker when there is none; a finished item is done and the worker free for
   another; a rejection ends the worker.
   */
  lemma StepMeans(p: Pool, e: Event)
    requires Enabled(p, e)
    ensures var q := Step(p, e); var (before, after) := (p.workers[e.w], q.workers[e.w]);
            && |q.workers| == |p.workers| && q.items == p.items
            && (forall w :: 0 <= w < |p.workers| && w != e.w ==> q.workers[w] == p.workers[w])
            && (e.Pull? && p.next < p.items ==> after == Busy(p.next) && q.next == p.next + 1 && q.done == p.done && q.failed == p.failed)
            && (e.Pull? && p.next >= p.items ==> after.Exited? && q.next == p.next && q.done == p.done && q.failed == p.failed)
            && (e.Fulfil? ==> after.Ready? && q.next == p.next && q.done == p.done + {before.item} && q.failed == p.failed)
            && (e.Reject? ==> after.Rejected? && q.next == p.next && q.done == p.done && q.failed == p.failed + {before.item})
  {
  }

  /** A worker that has exited or met a rejection stays so, however the others go on. */
  lemma {:induction false} EndedStaysEnded(pools: seq<Pool>, events: seq<Event>, items: nat, limit: nat, i: nat, j: nat, w: nat)
    requires Run(pools, events, items, limit) && i <= j < |pools|
    requires w < |pools[i].workers| && (pools[i].workers[w].Exited? || pools[i].workers[w].Rejected?)
    ensures w < |pools[j].workers| && pools[j].workers[w] == pools[i].workers[w]
    decreases j - i
  {
    if i < j {
      EndedStaysEnded(pools, events, items, limit, i, j - 1, w);
      StepMeans(pools[j - 1], events[j - 1]);
    }
  }
}
