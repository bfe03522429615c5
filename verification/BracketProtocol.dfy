/**
 The bracket protocol as a state machine: database rows, the keyed order audit, what the broker
 has accepted, and the workers that are between two awaits. Every transaction, every guarded
 write and every outcome of TradingService.place is one step; anything may run in between.
 */
module BracketProtocol {
  import opened Wrappers
  import opened BracketRules
  import opened BracketInvariant

  type TaskId = nat

  /** The order audit row of a leg's idempotency key. */
  datatype Audit = PendingAudit | CompletedAudit(order: OrderId)

  /** A close the broker accepted under a leg's idempotency key. */
  datatype Close = Close(order: OrderId, quantity: int)

  /** Where a worker stands between two awaits. */
  datatype Phase =
    | Firing(retired: set<LegId>, quantity: int)      // claimed the group, has not called place
    | Leased(quantity: int)                           // recovery took the lease, has not prepared the legs
    | Recovering(siblings: set<LegId>, quantity: int) // recovery prepared the legs, has not called place
    | Refused(retired: set<LegId>)                    // place threw an error that is not an uncertain one
    | Acknowledged(order: OrderId)                    // holds the accepted order, has not recorded it

  datatype Task = Task(worker: WorkerId, group: GroupId, leg: LegId, phase: Phase)

  datatype State = State(db: Db, audits: map<LegId, Audit>, accepted: map<LegId, Close>, tasks: map<TaskId, Task>)

  const INIT := State(Db(map[], map[], []), map[], map[], map[])

  /** How one call of place on a leg's key can end. */
  datatype Outcome =
    | Replayed                         // the completed audit answers
    | InFlight                         // a pending audit holds the key: an uncertain error
    | Found(recorded: bool)            // a stale pending audit, and the broker already has the order
    | Sent(order: OrderId, recorded: bool)
    | Unknown(taken: Option<OrderId>)  // sent and the answer lost, or the process died: the broker may have accepted
    | Rejected(cleared: bool)          // the key was claimed, and nothing was accepted
    | TurnedAway                       // refused before the key was looked at (kill switch, missing user)

  datatype Event =
    | ArmEvent(req: ArmRequest, canonical: Option<GroupId>, existing: Option<LegId>, newId: LegId, now: Time)
    | ResizeEvent(user: UserId, leg: LegId, quantity: int)
    | ShrinkEvent(g: GroupId, scope: Scope, held: int)
    | CancelEvent(user: UserId, leg: LegId)
    | OrphanEvent(leg: LegId)
    | ExpireEvent(leg: LegId, now: Time)
    | ClaimEvent(t: TaskId, leg: LegId, worker: WorkerId, now: Time)
    | UnclaimEvent(t: TaskId, status: LegStatus)
    | PlaceEvent(t: TaskId, outcome: Outcome)
    | SettleEvent(t: TaskId, text: string)
    | FinishEvent(t: TaskId)
    | TakeOverEvent(t: TaskId, g: GroupId, worker: WorkerId, now: Time)
    | PrepareEvent(t: TaskId, now: Time)
    | ReadAuditEvent(t: TaskId)
    | StopEvent(t: TaskId)
    | ExtendEvent(g: GroupId, until: Time, text: string)
    | AnnotateEvent(leg: LegId, text: string)
    | TradesEvent(trades: seq<Trade>)

  // ---------------------------------------------------------------------------
  // Steps
  // ---------------------------------------------------------------------------

  predicate MaySend(phase: Phase) {
    phase.Firing? || phase.Leased? || phase.Recovering?
  }

  predicate CallsPlace(phase: Phase) {
    phase.Firing? || phase.Recovering?
  }

  function PlacedQuantity(phase: Phase): int
    requires CallsPlace(phase)
  {
    phase.quantity
  }

  function RetiredSet(phase: Phase): set<LegId>
    requires CallsPlace(phase)
  {
    if phase.Firing? then phase.retired else phase.siblings
  }

  /** The key is free, or held by a stale claim of which the broker confirms it never arrived. */
  predicate KeyClaimable(s: State, leg: LegId) {
    leg !in s.audits || (s.audits[leg].PendingAudit? && leg !in s.accepted)
  }

  predicate PlaceEnabled(s: State, leg: LegId, outcome: Outcome) {
    match outcome
    case Replayed => leg in s.audits && s.audits[leg].CompletedAudit?
    case InFlight => leg in s.audits && s.audits[leg].PendingAudit?
    case Found(_) => leg in s.audits && s.audits[leg].PendingAudit? && leg in s.accepted
    case Sent(_, _) => KeyClaimable(s, leg)
    case Unknown(_) => KeyClaimable(s, leg)
    case Rejected(_) => KeyClaimable(s, leg)
    case TurnedAway => true
  }

  ghost predicate Enabled(s: State, e: Event) {
    match e
    case ArmEvent(req, canonical, existing, newId, now) =>
      && newId !in s.db.legs && IsCanonical(s.db, req.scope, canonical)
      && var ensured := EnsureGroup(s.db, req, canonical, now);
      ensured.Success? ==> IsLegOfKind(ensured.value.0, ensured.value.1, req.kind, existing)
    case ClaimEvent(t, _, _, _) => t !in s.tasks
    case TakeOverEvent(t, _, _, _) => t !in s.tasks
    case UnclaimEvent(t, status) => t in s.tasks && s.tasks[t].phase.Firing? && status in {Working, Expired}
    case PlaceEvent(t, outcome) =>
      t in s.tasks && CallsPlace(s.tasks[t].phase) && PlaceEnabled(s, s.tasks[t].leg, outcome)
    case SettleEvent(t, _) => t in s.tasks && s.tasks[t].phase.Refused?
    case FinishEvent(t) => t in s.tasks && s.tasks[t].phase.Acknowledged?
    case PrepareEvent(t, _) => t in s.tasks && s.tasks[t].phase.Leased?
    case ReadAuditEvent(t) =>
      && t in s.tasks && s.tasks[t].phase.Recovering?
      && s.tasks[t].leg in s.audits && s.audits[s.tasks[t].leg].CompletedAudit?
    case StopEvent(t) => t in s.tasks
    case TradesEvent(trades) => TradesAdvance(s.db.trades, trades)
    case _ => true
  }

  function WithPhase(s: State, t: TaskId, phase: Phase): State
    requires t in s.tasks
  {
    s.(tasks := s.tasks[t := s.tasks[t].(phase := phase)])
  }

  function WithoutTask(s: State, t: TaskId): State {
    s.(tasks := s.tasks - {t})
  }

  function Keep(before: Db, after: Option<Db>): Db {
    if after.Some? then after.value else before
  }

  function KeepResult(before: Db, after: Result<Db, ArmError>): Db {
    if after.Success? then after.value else before
  }

  function Place(s: State, t: TaskId, outcome: Outcome): State
    requires t in s.tasks && CallsPlace(s.tasks[t].phase) && PlaceEnabled(s, s.tasks[t].leg, outcome)
  {
    var task := s.tasks[t];
    var leg := task.leg;
    match outcome
    case Replayed => WithPhase(s, t, Acknowledged(s.audits[leg].order))
    case InFlight => WithoutTask(s, t)
    case Found(recorded) =>
      var order := s.accepted[leg].order;
      var audits := if recorded then s.audits[leg := CompletedAudit(order)] else s.audits;
      WithPhase(s.(audits := audits), t, Acknowledged(order))
    case Sent(order, recorded) =>
      var audit := if recorded then CompletedAudit(order) else PendingAudit;
      var close := Close(order, PlacedQuantity(task.phase));
      WithPhase(s.(audits := s.audits[leg := audit], accepted := s.accepted[leg := close]), t, Acknowledged(order))
    case Unknown(order) =>
      var accepted := if order.None? then s.accepted else s.accepted[leg := Close(order.value, PlacedQuantity(task.phase))];
      WithoutTask(s.(audits := s.audits[leg := PendingAudit], accepted := accepted), t)
    case Rejected(cleared) =>
      var audits := if cleared then s.audits - {leg} else s.audits[leg := PendingAudit];
      WithPhase(s.(audits := audits), t, Refused(RetiredSet(task.phase)))
    case TurnedAway => WithPhase(s, t, Refused(RetiredSet(task.phase)))
  }

  ghost function Apply(s: State, e: Event): State
    requires Enabled(s, e)
  {
    match e
    case ArmEvent(req, canonical, existing, newId, now) =>
      var armed := Arm(s.db, req, canonical, existing, newId, now);
      if armed.Success? then s.(db := armed.value.0) else s
    case ResizeEvent(user, leg, quantity) => s.(db := KeepResult(s.db, Resize(s.db, user, leg, quantity)))
    case ShrinkEvent(g, scope, held) => s.(db := Keep(s.db, Shrink(s.db, g, scope, held)))
    case CancelEvent(user, leg) => s.(db := KeepResult(s.db, CancelLeg(s.db, user, leg)))
    case OrphanEvent(leg) =>
      s.(db := Keep(s.db, RetireLeg(s.db, leg, Cancelled, "All bracket legs orphaned from the broker position")))
    case ExpireEvent(leg, now) => s.(db := Keep(s.db, ExpireLeg(s.db, leg, now)))
    case ClaimEvent(t, leg, worker, now) =>
      var claim := Claim(s.db, leg, worker, now);
      if claim.None? then s
      else
        var task := Task(worker, s.db.legs[leg].group, leg, Firing(claim.value.retired, claim.value.quantity));
        s.(db := claim.value.db, tasks := s.tasks[t := task])
    case UnclaimEvent(t, status) =>
      var task := s.tasks[t];
      WithoutTask(s.(db := Keep(s.db, SettleNoSend(s.db, task.leg, task.phase.retired, status, NoNote, task.worker,
                                                   "Bracket fire was unclaimed before broker placement"))), t)
    case PlaceEvent(t, outcome) => Place(s, t, outcome)
    case SettleEvent(t, text) =>
      var task := s.tasks[t];
      WithoutTask(s.(db := Keep(s.db, SettleNoSend(s.db, task.leg, task.phase.retired, Failed, Message(text), task.worker,
                                                   "Bracket fire was rejected before broker acceptance"))), t)
    case FinishEvent(t) =>
      var task := s.tasks[t];
      WithoutTask(s.(db := Keep(s.db, Finish(s.db, task.leg, task.phase.order, task.worker))), t)
    case TakeOverEvent(t, g, worker, now) =>
      var taken := TakeOver(s.db, g, worker, now);
      if taken.None? then s
      else if s.db.groups[g].fireLeg.None? then s.(db := taken.value)
      else
        var task := Task(worker, g, s.db.groups[g].fireLeg.value, Leased(s.db.groups[g].protectedQuantity));
        s.(db := taken.value, tasks := s.tasks[t := task])
    case PrepareEvent(t, now) =>
      var task := s.tasks[t];
      var prepared := Prepare(s.db, task.leg, task.group, now);
      if prepared.None? then WithoutTask(s.(db := GiveUp(s.db, task.group, task.worker)), t)
      else WithPhase(s.(db := prepared.value.db), t, Recovering(prepared.value.siblings, task.phase.quantity))
    case ReadAuditEvent(t) => WithPhase(s, t, Acknowledged(s.audits[s.tasks[t].leg].order))
    case StopEvent(t) => WithoutTask(s, t)
    case ExtendEvent(g, until, text) => s.(db := Extend(s.db, g, until, text))
    case AnnotateEvent(leg, text) => s.(db := Annotate(s.db, leg, text))
    case TradesEvent(trades) => s.(db := s.db.(trades := trades))
  }

  // ---------------------------------------------------------------------------
  // What the protocol relies on
  // ---------------------------------------------------------------------------

  /**
   The process has no earlier attempt on this leg that was refused and is still to be unwound. One that
   was acknowledged does no harm: all it can still do is record the order that was accepted.
   */
  predicate NoRefusedAttempt(s: State, worker: WorkerId, leg: LegId) {
    forall t :: t in s.tasks && s.tasks[t].leg == leg && s.tasks[t].phase.Refused? ==> s.tasks[t].worker != worker
  }

  /**
   A lease that ran out means its claimant has stopped: nobody who may still send works on the
   group, and the process taking it has no refused attempt on the fire leg. A task of another process
   that already has its answer from place may still be running.
   */
  predicate Quiet(s: State, worker: WorkerId, g: GroupId) {
    && (forall t :: t in s.tasks && s.tasks[t].group == g ==> !MaySend(s.tasks[t].phase))
    && (g in s.db.groups && s.db.groups[g].fireLeg.Some? ==> NoRefusedAttempt(s, worker, s.db.groups[g].fireLeg.value))
  }

  /** A refusal met during recovery says nothing about an earlier send unless no audit row is left of one. */
  predicate RefusalIsConclusive(s: State, t: TaskId, outcome: Outcome)
    requires t in s.tasks
  {
    outcome.TurnedAway? && s.tasks[t].phase.Recovering? ==> s.tasks[t].leg !in s.audits
  }

  ghost predicate Disciplined(s: State, e: Event)
    requires Enabled(s, e)
  {
    match e
    case ClaimEvent(t, leg, worker, now) => Claim(s.db, leg, worker, now).Some? ==> NoRefusedAttempt(s, worker, leg)
    case TakeOverEvent(t, g, worker, now) => TakeOver(s.db, g, worker, now).Some? ==> Quiet(s, worker, g)
    case PlaceEvent(t, outcome) => RefusalIsConclusive(s, t, outcome)
    case _ => true
  }

  // ---------------------------------------------------------------------------
  // The invariant
  // ---------------------------------------------------------------------------

  ghost function MarkedBy(db: Db, leg: LegId): set<LegId> {
    set l | l in db.legs && db.legs[l].note == RetiredBy(leg)
  }

  /** An accepted key belongs to the fire leg of a pending or fired group, at the protected size. */
  ghost predicate AcceptedOk(s: State, k: LegId)
    requires k in s.accepted
  {
    && k in s.db.legs && s.db.legs[k].group in s.db.groups
    && s.db.legs[k].status in {PendingFire, Triggered}
    && s.db.groups[s.db.legs[k].group].fireLeg == Some(k)
    && k in s.audits
    && s.accepted[k].quantity == s.db.groups[s.db.legs[k].group].protectedQuantity
  }

  ghost predicate BrokerOk(s: State) {
    && s.audits.Keys <= s.db.legs.Keys
    && (forall k :: k in s.accepted ==> AcceptedOk(s, k))
    && (forall k :: k in s.audits && s.audits[k].CompletedAudit? ==> k in s.accepted && s.accepted[k].order == s.audits[k].order)
    && (forall l :: l in s.db.legs && s.db.legs[l].status == Triggered ==>
          l in s.accepted && s.db.legs[l].brokerOrder == Some(s.accepted[l].order))
  }

  /** Finished by an earlier attempt of the same process: the order is recorded and nothing is left to send. */
  ghost predicate Done(s: State, g: GroupId, leg: LegId) {
    && g in s.db.groups && s.db.groups[g].status == GroupFired && s.db.groups[g].fireLeg == Some(leg)
    && leg in s.accepted && leg in s.db.legs && s.db.legs[leg].status == Triggered
  }

  ghost predicate TaskOk(s: State, t: TaskId)
    requires t in s.tasks
  {
    var task := s.tasks[t];
    && task.leg in s.db.legs && s.db.legs[task.leg].group == task.group && task.group in s.db.groups
    && (MaySend(task.phase) ==>
          && (HoldsClaim(s.db, task.leg, task.worker) || Done(s, task.group, task.leg))
          && task.phase.quantity == s.db.groups[task.group].protectedQuantity
          && (forall u :: u in s.tasks && u != t && s.tasks[u].group == task.group ==>
                !MaySend(s.tasks[u].phase) && (s.tasks[u].leg == task.leg && s.tasks[u].phase.Refused? ==> s.tasks[u].worker != task.worker)))
    && (CallsPlace(task.phase) && HoldsClaim(s.db, task.leg, task.worker) ==> RetiredSet(task.phase) == MarkedBy(s.db, task.leg))
    && (task.phase.Firing? ==> task.leg !in s.accepted)
    && (task.phase.Refused? && HoldsClaim(s.db, task.leg, task.worker) ==>
          task.leg !in s.accepted && task.phase.retired == MarkedBy(s.db, task.leg))
    && (task.phase.Acknowledged? ==> task.leg in s.accepted && s.accepted[task.leg].order == task.phase.order)
  }

  ghost predicate Inv(s: State) {
    && DbOk(s.db)
    && BrokerOk(s)
    && (forall t :: t in s.tasks ==> TaskOk(s, t))
  }

  lemma InitInv()
    ensures Inv(INIT)
  {
  }

  // ---------------------------------------------------------------------------
  // Preservation, step by step
  // ---------------------------------------------------------------------------

  /** An idle group has no fire leg, nothing sent, and no marker of anybody. */
  lemma IdleGroup(db: Db, g: GroupId)
    requires DbOk(db) && g in db.groups && db.groups[g].status in {GroupWorking, GroupClosed}
    ensures db.groups[g].fireLeg.None?
    ensures forall l :: l in db.legs && db.legs[l].group == g ==>
              db.legs[l].status !in {PendingFire, Triggered} && !db.legs[l].note.RetiredBy?
  {
    assert GroupOk(db, g);
    forall l | l in db.legs && db.legs[l].group == g
      ensures db.legs[l].status !in {PendingFire, Triggered} && !db.legs[l].note.RetiredBy?
    {
      assert InGroup(db, g, l);
    }
  }

  lemma ClaimedGroup(db: Db, g: GroupId)
    requires DbOk(db) && g in db.groups && db.groups[g].status == GroupPendingFire
    ensures var group := db.groups[g];
            && group.fireLeg.Some? && group.leaseOwner.Some? && group.leaseExpires.Some?
            && group.fireLeg.value in db.legs && db.legs[group.fireLeg.value].group == g
            && db.legs[group.fireLeg.value].status == PendingFire
            && db.legs[group.fireLeg.value].user == group.scope.user
            && (forall l :: l in db.legs && db.legs[l].group == g && l != group.fireLeg.value ==> !IsActive(db.legs[l].status))
  {
    var group := db.groups[g];
    assert GroupOk(db, g);
    assert LegOk(db, group.fireLeg.value);
    forall l | l in db.legs && db.legs[l].group == g && l != group.fireLeg.value
      ensures !IsActive(db.legs[l].status)
    {
      assert InGroup(db, g, l);
    }
  }

  /** A worker sees only its leg, its group, the marks of its leg and the acceptance of its key. */
  lemma TaskFrame(s: State, s': State, t: TaskId)
    requires t in s.tasks && TaskOk(s, t)
    requires t in s'.tasks && s'.tasks[t] == s.tasks[t]
    requires forall u :: u in s'.tasks && u != t && s'.tasks[u].group == s.tasks[t].group ==>
               u in s.tasks && s'.tasks[u].(phase := s.tasks[u].phase) == s.tasks[u] &&
               (MaySend(s'.tasks[u].phase) ==> MaySend(s.tasks[u].phase)) &&
               (MaySend(s.tasks[t].phase) && s'.tasks[u].phase.Refused? ==> s.tasks[u].phase.Refused?)
    requires var (leg, g) := (s.tasks[t].leg, s.tasks[t].group);
             && leg in s'.db.legs && s'.db.legs[leg].group == g && s'.db.legs[leg].user == s.db.legs[leg].user
             && s'.db.legs[leg].status == s.db.legs[leg].status
             && g in s'.db.groups && s'.db.groups[g] == s.db.groups[g]
             && (leg in s'.accepted <==> leg in s.accepted)
             && (leg in s.accepted ==> s'.accepted[leg].order == s.accepted[leg].order)
             && (HoldsClaim(s.db, leg, s.tasks[t].worker) ==> MarkedBy(s'.db, leg) == MarkedBy(s.db, leg))
    ensures TaskOk(s', t)
  {
  }

  /** A change to a group that is neither claimed nor fired, before or after, is invisible to broker and workers. */
  lemma IdleGroupChangeKeepsInv(s: State, after: Db, g: GroupId)
    requires Inv(s) && DbOk(after) && OnlyGroupChanged(s.db, after, g)
    requires g in after.groups && after.groups[g].status in {GroupWorking, GroupClosed}
    requires g in s.db.groups ==> s.db.groups[g].status in {GroupWorking, GroupClosed}
    ensures Inv(s.(db := after))
  {
    hide DbOk;
    var s' := s.(db := after);
    IdleGroup(after, g);
    if g in s.db.groups { IdleGroup(s.db, g); }
    forall k | k in s.accepted
      ensures AcceptedOk(s', k)
    {
      assert AcceptedOk(s, k);
    }
    forall t | t in s.tasks
      ensures TaskOk(s', t)
    {
      IdleTask(s, after, g, t);
    }
  }

  lemma IdleTask(s: State, after: Db, g: GroupId, t: TaskId)
    requires Inv(s) && DbOk(after) && OnlyGroupChanged(s.db, after, g) && t in s.tasks
    requires g in after.groups && after.groups[g].status in {GroupWorking, GroupClosed}
    requires g in s.db.groups ==> s.db.groups[g].status in {GroupWorking, GroupClosed}
    ensures TaskOk(s.(db := after), t)
  {
    hide DbOk, BrokerOk;
    assert TaskOk(s, t);
    if s.tasks[t].group != g {
      if HoldsClaim(s.db, s.tasks[t].leg, s.tasks[t].worker) {
        OthersMarksUnchanged(s.db, after, g, s.tasks[t].leg);
      }
      TaskFrame(s, s.(db := after), t);
    }
  }

  /** The marker of another group's fire leg is not found in g, so a change to g cannot touch it. */
  lemma OthersMarksUnchanged(before: Db, after: Db, g: GroupId, leg: LegId)
    requires DbOk(before) && DbOk(after) && OnlyGroupChanged(before, after, g)
    requires leg in before.legs && before.legs[leg].group != g
    ensures MarkedBy(after, leg) == MarkedBy(before, leg)
  {
    hide DbOk;
    forall l | l in after.legs && after.legs[l].group == g
      ensures after.legs[l].note != RetiredBy(leg)
    {
      if after.legs[l].note == RetiredBy(leg) { MarkStaysInGroup(after, l, leg); }
    }
    forall l | l in before.legs && before.legs[l].group == g
      ensures before.legs[l].note != RetiredBy(leg)
    {
      if before.legs[l].note == RetiredBy(leg) { MarkStaysInGroup(before, l, leg); }
    }
  }

  lemma MarkStaysInGroup(db: Db, l: LegId, leg: LegId)
    requires DbOk(db) && l in db.legs && db.legs[l].note == RetiredBy(leg)
    ensures leg in db.legs && db.legs[leg].group == db.legs[l].group
    ensures db.legs[l].group in db.groups && db.groups[db.legs[l].group].status == GroupPendingFire
    ensures db.groups[db.legs[l].group].fireLeg == Some(leg)
    ensures db.legs[l].status == Cancelled && db.legs[l].user == db.legs[leg].user && db.legs[l].mode == db.legs[leg].mode
  {
    assert LegOk(db, l) && GroupOk(db, db.legs[l].group) && InGroup(db, db.legs[l].group, l);
    assert LegOk(db, leg);
  }

  lemma ArmKeepsInv(s: State, req: ArmRequest, canonical: Option<GroupId>, existing: Option<LegId>, newId: LegId, now: Time)
    requires Inv(s) && Enabled(s, ArmEvent(req, canonical, existing, newId, now))
    ensures Inv(Apply(s, ArmEvent(req, canonical, existing, newId, now)))
  {
    hide BrokerOk, TaskOk, GroupOk, LegOk, OneLivePerScope, OnlyGroupChanged, IsCanonical;
    if Arm(s.db, req, canonical, existing, newId, now).Success? {
      ArmKeepsDb(s.db, req, canonical, existing, newId, now);
      EnsuredGroupAcceptsLeg(s.db, req, canonical, now);
      var armed := Arm(s.db, req, canonical, existing, newId, now).value;
      IdleGroupChangeKeepsInv(s, armed.0, armed.0.legs[armed.1].group);
    }
  }

  lemma QuantityEventsKeepInv(s: State, e: Event)
    requires Inv(s) && (e.ResizeEvent? || e.ShrinkEvent?)
    ensures Inv(Apply(s, e))
  {
    match e
    case ResizeEvent(user, leg, quantity) =>
      if Resize(s.db, user, leg, quantity).Success? {
        ResizeKeepsDb(s.db, user, leg, quantity);
        IdleGroupChangeKeepsInv(s, Resize(s.db, user, leg, quantity).value, s.db.legs[leg].group);
      }
    case ShrinkEvent(g, scope, held) =>
      if Shrink(s.db, g, scope, held).Some? {
        ShrinkKeepsDb(s.db, g, scope, held);
        IdleGroupChangeKeepsInv(s, Shrink(s.db, g, scope, held).value, g);
      }
  }

  lemma RetireKeepsInv(s: State, leg: LegId, status: LegStatus, reason: string)
    requires Inv(s) && status in {Cancelled, Expired}
    ensures Inv(s.(db := Keep(s.db, RetireLeg(s.db, leg, status, reason))))
  {
    if RetireLeg(s.db, leg, status, reason).Some? {
      RetireLegKeepsDb(s.db, leg, status, reason);
      var g := s.db.legs[leg].group;
      assert GroupOk(s.db, g) && InGroup(s.db, g, leg);
      IdleGroupChangeKeepsInv(s, RetireLeg(s.db, leg, status, reason).value, g);
    }
  }

  lemma ClaimKeepsInv(s: State, t: TaskId, leg: LegId, worker: WorkerId, now: Time)
    requires Inv(s) && Enabled(s, ClaimEvent(t, leg, worker, now)) && Disciplined(s, ClaimEvent(t, leg, worker, now))
    ensures Inv(Apply(s, ClaimEvent(t, leg, worker, now)))
  {
    hide DbOk, BrokerOk, TaskOk, NoRefusedAttempt;
    if Claim(s.db, leg, worker, now).Some? {
      var s' := Started(s, t, leg, worker, now);
      ClaimKeepsDb(s.db, leg, worker, now);
      ClaimKeepsBroker(s, leg, worker, now);
      BrokerFrame(s.(db := s'.db), s');
      forall u | u in s'.tasks
        ensures TaskOk(s', u)
      {
        if u != t { ClaimSparesTask(s, t, leg, worker, now, u); } else { ClaimantIsOk(s, t, leg, worker, now); }
      }
    }
  }

  /** The state after a claim under task t. */
  function Started(s: State, t: TaskId, leg: LegId, worker: WorkerId, now: Time): State
    requires Claim(s.db, leg, worker, now).Some?
  {
    var claim := Claim(s.db, leg, worker, now).value;
    s.(db := claim.db, tasks := s.tasks[t := Task(worker, s.db.legs[leg].group, leg, Firing(claim.retired, claim.quantity))])
  }

  /** Whoever may still send holds a claim, or its group has fired. */
  lemma NobodySendsForWorking(s: State, g: GroupId)
    requires g in s.db.groups && s.db.groups[g].status == GroupWorking && forall u :: u in s.tasks ==> TaskOk(s, u)
    ensures forall u :: u in s.tasks && s.tasks[u].group == g ==> !MaySend(s.tasks[u].phase)
  {
    forall u | u in s.tasks && s.tasks[u].group == g ensures !MaySend(s.tasks[u].phase) { assert TaskOk(s, u); }
  }

  lemma ClaimantIsOk(s: State, t: TaskId, leg: LegId, worker: WorkerId, now: Time)
    requires Inv(s) && t !in s.tasks && Claim(s.db, leg, worker, now).Some? && NoRefusedAttempt(s, worker, leg)
    ensures TaskOk(Started(s, t, leg, worker, now), t)
  {
    hide DbOk, BrokerOk, TaskOk, UnresolvedClose;
    ClaimKeepsBroker(s, leg, worker, now);
    ClaimMarksSiblings(s.db, leg, worker, now);
    NobodySendsForWorking(s, s.db.legs[leg].group);
    FreshClaimantIsOk(s, t, leg, worker, now);
  }

  lemma FreshClaimantIsOk(s: State, t: TaskId, leg: LegId, worker: WorkerId, now: Time)
    requires t !in s.tasks && Claim(s.db, leg, worker, now).Some? && NoRefusedAttempt(s, worker, leg) && leg !in s.accepted
    requires forall u :: u in s.tasks && s.tasks[u].group == s.db.legs[leg].group ==> !MaySend(s.tasks[u].phase)
    requires MarkedBy(Claim(s.db, leg, worker, now).value.db, leg) == Claim(s.db, leg, worker, now).value.retired
    ensures TaskOk(Started(s, t, leg, worker, now), t)
  {
    hide MarkedBy, UnresolvedClose;
  }

  lemma ClaimKeepsBroker(s: State, leg: LegId, worker: WorkerId, now: Time)
    requires DbOk(s.db) && BrokerOk(s) && Claim(s.db, leg, worker, now).Some?
    ensures BrokerOk(s.(db := Claim(s.db, leg, worker, now).value.db))
    ensures leg !in s.accepted
  {
    hide DbOk;
    var s' := s.(db := Claim(s.db, leg, worker, now).value.db);
    IdleGroup(s.db, s.db.legs[leg].group);
    forall k | k in s.accepted ensures AcceptedOk(s', k) && k != leg { assert AcceptedOk(s, k); }
  }

  lemma ClaimSparesTask(s: State, t: TaskId, leg: LegId, worker: WorkerId, now: Time, u: TaskId)
    requires DbOk(s.db) && t !in s.tasks && Claim(s.db, leg, worker, now).Some? && NoRefusedAttempt(s, worker, leg)
    requires u in s.tasks && TaskOk(s, u)
    ensures TaskOk(Started(s, t, leg, worker, now), u)
  {
    hide DbOk, UnresolvedClose;
    var g := s.db.legs[leg].group;
    if s.tasks[u].group != g {
      ClaimSparesOtherGroup(s, t, leg, worker, now, u);
    } else {
      ClaimSparesOwnGroup(s, t, leg, worker, now, u);
    }
  }

  lemma ClaimSparesOtherGroup(s: State, t: TaskId, leg: LegId, worker: WorkerId, now: Time, u: TaskId)
    requires DbOk(s.db) && t !in s.tasks && Claim(s.db, leg, worker, now).Some?
    requires u in s.tasks && TaskOk(s, u) && s.tasks[u].group != s.db.legs[leg].group
    ensures TaskOk(Started(s, t, leg, worker, now), u)
  {
    hide DbOk, UnresolvedClose, MarkedBy;
    var s' := Started(s, t, leg, worker, now);
    ClaimKeepsDb(s.db, leg, worker, now);
    OthersMarksUnchanged(s.db, s'.db, s.db.legs[leg].group, s.tasks[u].leg);
    TaskFrame(s, s', u);
  }

  /** In a group that was working nobody may send, and only an acknowledged attempt can come to hold the new claim. */
  lemma ClaimSparesOwnGroup(s: State, t: TaskId, leg: LegId, worker: WorkerId, now: Time, u: TaskId)
    requires DbOk(s.db) && t !in s.tasks && Claim(s.db, leg, worker, now).Some? && NoRefusedAttempt(s, worker, leg)
    requires u in s.tasks && TaskOk(s, u) && s.tasks[u].group == s.db.legs[leg].group
    ensures TaskOk(Started(s, t, leg, worker, now), u)
  {
    hide DbOk, UnresolvedClose, MarkedBy;
  }

  lemma ClaimMarksSiblings(db: Db, leg: LegId, worker: WorkerId, now: Time)
    requires DbOk(db) && Claim(db, leg, worker, now).Some?
    ensures var claim := Claim(db, leg, worker, now).value; MarkedBy(claim.db, leg) == claim.retired
  {
    hide DbOk;
    forall l | l in db.legs
      ensures db.legs[l].note != RetiredBy(leg)
    {
      if db.legs[l].note == RetiredBy(leg) { MarkStaysInGroup(db, l, leg); }
    }
  }

  /** A claim ended by the attempt that holds it: unwound, or finished. */
  ghost predicate EndsClaim(s: State, after: Db, t: TaskId) {
    && t in s.tasks && TaskOk(s, t) && DbOk(s.db) && DbOk(after) && OnlyGroupChanged(s.db, after, s.tasks[t].group)
    && HoldsClaim(s.db, s.tasks[t].leg, s.tasks[t].worker)
    && var g := s.tasks[t].group;
    && g in after.groups && after.groups[g].status != GroupPendingFire
    && (s.tasks[t].phase.Firing? || s.tasks[t].phase.Refused? ||
        (after.groups[g].protectedQuantity == s.db.groups[g].protectedQuantity && Done(s.(db := after), g, s.tasks[t].leg)))
  }

  /** Nothing any other worker relies on moves, but for an attempt of the same process that finds the group finished. */
  lemma ClaimEndSparesTask(s: State, after: Db, t: TaskId, u: TaskId)
    requires EndsClaim(s, after, t) && u in s.tasks && u != t && TaskOk(s, u)
    ensures TaskOk(WithoutTask(s.(db := after), t), u)
  {
    hide DbOk;
    var s' := WithoutTask(s.(db := after), t);
    var g := s.tasks[t].group;
    if s.tasks[u].group != g {
      OthersMarksUnchanged(s.db, after, g, s.tasks[u].leg);
      hide MarkedBy, EndsClaim;
      TaskFrame(s, s', u);
    } else {
      ClaimEndSparesOwnGroup(s, after, t, u);
    }
  }

  lemma ClaimEndSparesOwnGroup(s: State, after: Db, t: TaskId, u: TaskId)
    requires EndsClaim(s, after, t) && u in s.tasks && u != t && TaskOk(s, u) && s.tasks[u].group == s.tasks[t].group
    ensures TaskOk(WithoutTask(s.(db := after), t), u)
  {
    hide DbOk, MarkedBy;
  }

  lemma SettleKeepsInv(s: State, t: TaskId, retired: set<LegId>, status: LegStatus, note: Note, reason: string)
    requires Inv(s) && t in s.tasks
    requires (s.tasks[t].phase.Firing? || s.tasks[t].phase.Refused?) && s.tasks[t].phase.retired == retired
    requires status in {Working, Failed, Expired} && !note.RetiredBy? && (status == Working ==> note == NoNote)
    ensures var task := s.tasks[t];
            Inv(WithoutTask(s.(db := Keep(s.db, SettleNoSend(s.db, task.leg, retired, status, note, task.worker, reason))), t))
  {
    hide DbOk, SettleNoSend, BrokerOk;
    var task := s.tasks[t];
    var settled := SettleNoSend(s.db, task.leg, retired, status, note, task.worker, reason);
    if settled.None? {
      StopKeepsInv(s, t);
    } else {
      var s' := WithoutTask(s.(db := settled.value), t);
      assert TaskOk(s, t);
      SettleEndsClaim(s.db, task.leg, retired, status, note, task.worker, reason);
      SettleKeepsDb(s.db, task.leg, retired, status, note, task.worker, reason);
      forall u | u in s'.tasks ensures TaskOk(s', u) { ClaimEndSparesTask(s, settled.value, t, u); }
      SettledGroupHasNoAccepted(s, settled.value, task.leg);
      BrokerFrame(s.(db := settled.value), s');
    }
  }

  lemma SettleEndsClaim(db: Db, leg: LegId, retired: set<LegId>, status: LegStatus, note: Note, worker: WorkerId, reason: string)
    requires SettleNoSend(db, leg, retired, status, note, worker, reason).Some?
    ensures HoldsClaim(db, leg, worker)
    ensures var after := SettleNoSend(db, leg, retired, status, note, worker, reason).value;
            db.legs[leg].group in after.groups && after.groups[db.legs[leg].group].status in {GroupWorking, GroupClosed}
  {
  }

  lemma SettledGroupHasNoAccepted(s: State, after: Db, leg: LegId)
    requires Inv(s) && DbOk(after) && leg in s.db.legs && leg !in s.accepted
    requires s.db.legs[leg].group in s.db.groups && s.db.groups[s.db.legs[leg].group].fireLeg == Some(leg)
    requires OnlyGroupChanged(s.db, after, s.db.legs[leg].group)
    requires after.groups[s.db.legs[leg].group].status in {GroupWorking, GroupClosed}
    ensures BrokerOk(s.(db := after))
  {
    hide DbOk, TaskOk;
    var s' := s.(db := after);
    IdleGroup(after, s.db.legs[leg].group);
    forall k | k in s.accepted ensures AcceptedOk(s', k) { assert AcceptedOk(s, k); }
  }

  lemma StopKeepsInv(s: State, t: TaskId)
    requires Inv(s)
    ensures Inv(WithoutTask(s, t))
  {
    hide DbOk, BrokerOk;
    forall u | u in s.tasks && u != t ensures TaskOk(WithoutTask(s, t), u) { assert TaskOk(s, u); }
    BrokerFrame(s, WithoutTask(s, t));
  }

  /** What the broker accepted constrains rows and audits, not workers. */
  lemma BrokerFrame(s: State, s': State)
    requires BrokerOk(s) && s'.db == s.db && s'.audits == s.audits && s'.accepted == s.accepted
    ensures BrokerOk(s')
  {
    forall k | k in s'.accepted ensures AcceptedOk(s', k) { assert AcceptedOk(s, k); }
  }

  lemma FinishKeepsInv(s: State, t: TaskId)
    requires Inv(s) && Enabled(s, FinishEvent(t))
    ensures Inv(Apply(s, FinishEvent(t)))
  {
    hide DbOk, BrokerOk, Finish;
    var task := s.tasks[t];
    var finished := Finish(s.db, task.leg, task.phase.order, task.worker);
    if finished.None? {
      StopKeepsInv(s, t);
    } else {
      var s' := Apply(s, FinishEvent(t));
      assert TaskOk(s, t);
      FinishEndsClaim(s.db, task.leg, task.phase.order, task.worker);
      FinishKeepsDb(s.db, task.leg, task.phase.order, task.worker);
      forall u | u in s'.tasks ensures TaskOk(s', u) { ClaimEndSparesTask(s, finished.value, t, u); }
      FinishKeepsBroker(s, finished.value, task.leg, task.phase.order, task.worker);
      BrokerFrame(s.(db := finished.value), s');
    }
  }

  lemma FinishEndsClaim(db: Db, leg: LegId, order: OrderId, worker: WorkerId)
    requires Finish(db, leg, order, worker).Some?
    ensures HoldsClaim(db, leg, worker)
    ensures var after := Finish(db, leg, order, worker).value;
            var g := db.legs[leg].group;
            && g in after.groups && after.groups[g].status == GroupFired && after.groups[g].fireLeg == Some(leg)
            && after.groups[g].protectedQuantity == db.groups[g].protectedQuantity
            && after.legs.Keys == db.legs.Keys
            && after.legs[leg].status == Triggered && after.legs[leg].brokerOrder == Some(order)
            && (forall l :: l in db.legs && l != leg ==> after.legs[l].status == Triggered ==> db.legs[l].status == Triggered)
  {
  }

  lemma FinishKeepsBroker(s: State, after: Db, leg: LegId, order: OrderId, worker: WorkerId)
    requires Inv(s) && Finish(s.db, leg, order, worker) == Some(after)
    requires OnlyGroupChanged(s.db, after, s.db.legs[leg].group)
    requires leg in s.accepted && s.accepted[leg].order == order
    ensures BrokerOk(s.(db := after))
  {
    hide TaskOk, DbOk, Finish;
    var s' := s.(db := after);
    FinishEndsClaim(s.db, leg, order, worker);
    ClaimedGroup(s.db, s.db.legs[leg].group);
    forall k | k in s.accepted ensures AcceptedOk(s', k) { assert AcceptedOk(s, k); }
    forall l | l in after.legs && after.legs[l].status == Triggered
      ensures l in s.accepted && after.legs[l].brokerOrder == Some(s.accepted[l].order)
    {
      if l != leg && s.db.legs[l].group != s.db.legs[leg].group { assert after.legs[l] == s.db.legs[l]; }
    }
  }

  lemma TakeOverKeepsInv(s: State, t: TaskId, g: GroupId, worker: WorkerId, now: Time)
    requires Inv(s) && Enabled(s, TakeOverEvent(t, g, worker, now)) && Disciplined(s, TakeOverEvent(t, g, worker, now))
    ensures Inv(Apply(s, TakeOverEvent(t, g, worker, now)))
  {
    hide DbOk, BrokerOk, TaskOk, Quiet;
    if TakeOver(s.db, g, worker, now).Some? {
      ClaimedGroup(s.db, g);
      var s' := Taken(s, t, g, worker, now);
      TakeOverKeepsDb(s.db, g, worker, now);
      TakeOverKeepsBroker(s, g, worker, now);
      BrokerFrame(s.(db := s'.db), s');
      forall u | u in s'.tasks
        ensures TaskOk(s', u)
      {
        if u != t { TakeOverSparesTask(s, t, g, worker, now, u); } else { TakerIsOk(s, t, g, worker, now); }
      }
    }
  }

  lemma TakeOverKeepsBroker(s: State, g: GroupId, worker: WorkerId, now: Time)
    requires BrokerOk(s) && TakeOver(s.db, g, worker, now).Some?
    ensures BrokerOk(s.(db := TakeOver(s.db, g, worker, now).value))
  {
    var s' := s.(db := TakeOver(s.db, g, worker, now).value);
    forall k | k in s.accepted ensures AcceptedOk(s', k) { assert AcceptedOk(s, k); }
  }

  /** The state after a take-over under task t. */
  function Taken(s: State, t: TaskId, g: GroupId, worker: WorkerId, now: Time): State
    requires TakeOver(s.db, g, worker, now).Some? && s.db.groups[g].fireLeg.Some?
  {
    s.(db := TakeOver(s.db, g, worker, now).value,
       tasks := s.tasks[t := Task(worker, g, s.db.groups[g].fireLeg.value, Leased(s.db.groups[g].protectedQuantity))])
  }

  lemma TakerIsOk(s: State, t: TaskId, g: GroupId, worker: WorkerId, now: Time)
    requires DbOk(s.db) && t !in s.tasks && TakeOver(s.db, g, worker, now).Some? && s.db.groups[g].fireLeg.Some? && Quiet(s, worker, g)
    ensures TaskOk(Taken(s, t, g, worker, now), t)
  {
    hide DbOk, MarkedBy;
    ClaimedGroup(s.db, g);
  }

  lemma TakeOverSparesTask(s: State, t: TaskId, g: GroupId, worker: WorkerId, now: Time, u: TaskId)
    requires t !in s.tasks && TakeOver(s.db, g, worker, now).Some? && s.db.groups[g].fireLeg.Some? && Quiet(s, worker, g)
    requires u in s.tasks && TaskOk(s, u)
    ensures TaskOk(Taken(s, t, g, worker, now), u)
  {
    var s' := Taken(s, t, g, worker, now);
    assert MarkedBy(s'.db, s.tasks[u].leg) == MarkedBy(s.db, s.tasks[u].leg);
    hide MarkedBy;
    if s.tasks[u].group != g { TaskFrame(s, s', u); }
  }

  /** Recovery finds nothing to repair: the same rows, and the siblings the claim retired. */
  lemma PrepareFindsClaim(db: Db, leg: LegId, worker: WorkerId, now: Time)
    requires DbOk(db) && HoldsClaim(db, leg, worker)
    ensures Prepare(db, leg, db.legs[leg].group, now) == Some(Prepared(db, MarkedBy(db, leg)))
  {
    hide DbOk;
    var g := db.legs[leg].group;
    ClaimedGroup(db, g);
    var prepared := Prepare(db, leg, g, now).value;
    assert WorkingSiblings(db, leg) == {};
    assert prepared.db.legs == db.legs;
    forall l | l in MarkedBy(db, leg)
      ensures l in prepared.siblings
    {
      MarkStaysInGroup(db, l, leg);
    }
    assert prepared.siblings == MarkedBy(db, leg);
  }

  /** Nor is there anything to repair, or to restore, once an earlier attempt has finished the group. */
  lemma PrepareFindsFinished(db: Db, g: GroupId, leg: LegId, now: Time)
    requires DbOk(db) && g in db.groups && db.groups[g].status == GroupFired && db.groups[g].fireLeg == Some(leg)
    ensures Prepare(db, leg, g, now) == Some(Prepared(db, {}))
  {
    assert GroupOk(db, g);
    assert LegOk(db, leg);
    hide GroupOk, LegOk, OneLivePerScope;
    var prepared := Prepare(db, leg, g, now).value;
    assert forall l :: l in db.legs && l != leg && db.legs[l].group == g ==> InGroup(db, g, l);
    assert WorkingSiblings(db, leg) == {};
    assert prepared.db.legs == db.legs;
    assert prepared.siblings == {};
  }

  lemma PrepareFindsRows(s: State, t: TaskId, now: Time) returns (siblings: set<LegId>)
    requires Inv(s) && Enabled(s, PrepareEvent(t, now))
    ensures Prepare(s.db, s.tasks[t].leg, s.tasks[t].group, now) == Some(Prepared(s.db, siblings))
    ensures HoldsClaim(s.db, s.tasks[t].leg, s.tasks[t].worker) ==> siblings == MarkedBy(s.db, s.tasks[t].leg)
  {
    hide DbOk, BrokerOk, Prepare;
    assert TaskOk(s, t);
    if HoldsClaim(s.db, s.tasks[t].leg, s.tasks[t].worker) {
      PrepareFindsClaim(s.db, s.tasks[t].leg, s.tasks[t].worker, now);
      siblings := MarkedBy(s.db, s.tasks[t].leg);
    } else {
      PrepareFindsFinished(s.db, s.tasks[t].group, s.tasks[t].leg, now);
      siblings := {};
    }
  }

  /** A worker moves on to its next phase without touching any row. */
  lemma PhaseChangeKeepsInv(s: State, t: TaskId, phase: Phase)
    requires Inv(s) && t in s.tasks && MaySend(s.tasks[t].phase)
    requires MaySend(phase) ==> phase.quantity == s.tasks[t].phase.quantity
    requires CallsPlace(phase) ==> phase.Recovering?
    requires CallsPlace(phase) && HoldsClaim(s.db, s.tasks[t].leg, s.tasks[t].worker) ==> RetiredSet(phase) == MarkedBy(s.db, s.tasks[t].leg)
    requires phase.Refused? ==> s.tasks[t].leg !in s.accepted
    requires phase.Refused? && HoldsClaim(s.db, s.tasks[t].leg, s.tasks[t].worker) ==> phase.retired == MarkedBy(s.db, s.tasks[t].leg)
    requires phase.Acknowledged? ==> s.tasks[t].leg in s.accepted && s.accepted[s.tasks[t].leg].order == phase.order
    ensures Inv(WithPhase(s, t, phase))
  {
    hide DbOk, BrokerOk;
    var s' := WithPhase(s, t, phase);
    assert TaskOk(s, t);
    forall u | u in s'.tasks
      ensures TaskOk(s', u)
    {
      if u != t { assert TaskOk(s, u); TaskFrame(s, s', u); }
    }
    BrokerFrame(s, s');
  }

  lemma PrepareKeepsInv(s: State, t: TaskId, now: Time)
    requires Inv(s) && Enabled(s, PrepareEvent(t, now))
    ensures Inv(Apply(s, PrepareEvent(t, now)))
  {
    hide DbOk, BrokerOk, Prepare;
    assert TaskOk(s, t);
    var siblings := PrepareFindsRows(s, t, now);
    PhaseChangeKeepsInv(s, t, Recovering(siblings, s.tasks[t].phase.quantity));
  }

  /** The audit and acceptance of one leg's key may change as place allows; every other key is left alone. */
  ghost predicate KeyStep(s: State, leg: LegId, quantity: int, audits: map<LegId, Audit>, accepted: map<LegId, Close>) {
    && (forall k :: k != leg ==> (k in audits <==> k in s.audits) && (k in accepted <==> k in s.accepted))
    && (forall k :: k != leg && k in audits ==> audits[k] == s.audits[k])
    && (forall k :: k != leg && k in accepted ==> accepted[k] == s.accepted[k])
    && (leg in s.accepted ==> leg in accepted && accepted[leg] == s.accepted[leg])
    && (leg in accepted && leg !in s.accepted ==> accepted[leg].quantity == quantity)
    && (leg in accepted ==> leg in audits)
    && (leg in audits && audits[leg].CompletedAudit? ==> leg in accepted && accepted[leg].order == audits[leg].order)
  }

  lemma PlaceIsKeyStep(s: State, t: TaskId, outcome: Outcome)
    requires BrokerOk(s) && t in s.tasks && CallsPlace(s.tasks[t].phase) && PlaceEnabled(s, s.tasks[t].leg, outcome)
    ensures KeyStep(s, s.tasks[t].leg, s.tasks[t].phase.quantity, Place(s, t, outcome).audits, Place(s, t, outcome).accepted)
  {
    assert s.tasks[t].leg in s.accepted ==> AcceptedOk(s, s.tasks[t].leg);
  }

  /** A send, or its recording, under the key of the leg this worker alone may send. */
  lemma KeyStepKeepsInv(s: State, t: TaskId, audits: map<LegId, Audit>, accepted: map<LegId, Close>)
    requires Inv(s) && t in s.tasks && CallsPlace(s.tasks[t].phase)
    requires KeyStep(s, s.tasks[t].leg, s.tasks[t].phase.quantity, audits, accepted)
    ensures Inv(WithoutTask(s.(audits := audits, accepted := accepted), t))
  {
    hide DbOk, BrokerOk;
    var s' := WithoutTask(s.(audits := audits, accepted := accepted), t);
    assert TaskOk(s, t);
    KeyStepKeepsBroker(s, t, audits, accepted);
    forall u | u in s'.tasks
      ensures TaskOk(s', u)
    {
      KeyStepSparesTask(s, t, audits, accepted, u);
    }
  }

  lemma KeyStepKeepsBroker(s: State, t: TaskId, audits: map<LegId, Audit>, accepted: map<LegId, Close>)
    requires DbOk(s.db) && BrokerOk(s) && t in s.tasks && TaskOk(s, t) && CallsPlace(s.tasks[t].phase)
    requires KeyStep(s, s.tasks[t].leg, s.tasks[t].phase.quantity, audits, accepted)
    ensures BrokerOk(WithoutTask(s.(audits := audits, accepted := accepted), t))
  {
    hide DbOk, TaskOk;
    var s' := WithoutTask(s.(audits := audits, accepted := accepted), t);
    TaskLegExists(s, t);
    forall k | k in accepted
      ensures AcceptedOk(s', k)
    {
      if k != s.tasks[t].leg || k in s.accepted { assert AcceptedOk(s, k); } else { NewKeyIsOk(s, t); }
    }
  }

  lemma TaskLegExists(s: State, t: TaskId)
    requires t in s.tasks && TaskOk(s, t)
    ensures s.tasks[t].leg in s.db.legs
  {
  }

  /** A leg that may be sent and was not accepted yet is the pending fire leg of its group. */
  lemma NewKeyIsOk(s: State, t: TaskId)
    requires DbOk(s.db) && t in s.tasks && TaskOk(s, t) && CallsPlace(s.tasks[t].phase) && s.tasks[t].leg !in s.accepted
    ensures var (leg, g) := (s.tasks[t].leg, s.tasks[t].group);
            && leg in s.db.legs && s.db.legs[leg].group == g && g in s.db.groups && s.db.legs[leg].status == PendingFire
            && s.db.groups[g].fireLeg == Some(leg) && s.tasks[t].phase.quantity == s.db.groups[g].protectedQuantity
  {
    hide DbOk, MarkedBy;
    ClaimedGroup(s.db, s.tasks[t].group);
  }

  lemma KeyStepSparesTask(s: State, t: TaskId, audits: map<LegId, Audit>, accepted: map<LegId, Close>, u: TaskId)
    requires t in s.tasks && TaskOk(s, t) && u in s.tasks && TaskOk(s, u) && u != t && CallsPlace(s.tasks[t].phase)
    requires KeyStep(s, s.tasks[t].leg, s.tasks[t].phase.quantity, audits, accepted)
    ensures TaskOk(WithoutTask(s.(audits := audits, accepted := accepted), t), u)
  {
    if s.tasks[u].leg != s.tasks[t].leg {
      TaskFrame(s, WithoutTask(s.(audits := audits, accepted := accepted), t), u);
    }
  }

  lemma AddTaskKeepsInv(s: State, t: TaskId)
    requires t in s.tasks && Inv(WithoutTask(s, t)) && !MaySend(s.tasks[t].phase) && TaskOk(s, t)
    requires forall u :: u in s.tasks && u != t && s.tasks[u].group == s.tasks[t].group ==> !MaySend(s.tasks[u].phase)
    ensures Inv(s)
  {
    hide DbOk, BrokerOk;
    var less := WithoutTask(s, t);
    forall u | u in s.tasks && u != t
      ensures TaskOk(s, u)
    {
      assert TaskOk(less, u);
      if s.tasks[u].group != s.tasks[t].group { TaskFrame(less, s, u); }
    }
    BrokerFrame(less, s);
  }

  lemma PlaceKeepsInv(s: State, t: TaskId, outcome: Outcome)
    requires Inv(s) && Enabled(s, PlaceEvent(t, outcome)) && Disciplined(s, PlaceEvent(t, outcome))
    ensures Inv(Apply(s, PlaceEvent(t, outcome)))
  {
    hide DbOk, BrokerOk, TaskOk, Place;
    match outcome
    case InFlight => UnansweredPlaceKeepsInv(s, t, outcome);
    case Unknown(_) => UnansweredPlaceKeepsInv(s, t, outcome);
    case Replayed => RowlessPlaceKeepsInv(s, t, outcome);
    case TurnedAway => RowlessPlaceKeepsInv(s, t, outcome);
    case _ => AnsweredPlaceKeepsInv(s, t, outcome);
  }

  lemma RowlessPlaceKeepsInv(s: State, t: TaskId, outcome: Outcome)
    requires Inv(s) && Enabled(s, PlaceEvent(t, outcome)) && Disciplined(s, PlaceEvent(t, outcome))
    requires outcome.Replayed? || outcome.TurnedAway?
    ensures Inv(Place(s, t, outcome))
  {
    hide DbOk;
    assert TaskOk(s, t);
    assert s.tasks[t].leg in s.accepted ==> AcceptedOk(s, s.tasks[t].leg);
    PhaseChangeKeepsInv(s, t, Place(s, t, outcome).tasks[t].phase);
  }

  lemma UnansweredPlaceKeepsInv(s: State, t: TaskId, outcome: Outcome)
    requires Inv(s) && Enabled(s, PlaceEvent(t, outcome)) && (outcome.InFlight? || outcome.Unknown?)
    ensures Inv(Place(s, t, outcome))
  {
    hide DbOk, BrokerOk, TaskOk;
    if outcome.InFlight? {
      StopKeepsInv(s, t);
    } else {
      PlaceIsKeyStep(s, t, outcome);
      KeyStepKeepsInv(s, t, Place(s, t, outcome).audits, Place(s, t, outcome).accepted);
    }
  }

  lemma AnsweredPlaceKeepsInv(s: State, t: TaskId, outcome: Outcome)
    requires Inv(s) && Enabled(s, PlaceEvent(t, outcome)) && (outcome.Found? || outcome.Sent? || outcome.Rejected?)
    ensures Inv(Place(s, t, outcome))
  {
    hide DbOk, BrokerOk, TaskOk, PlaceEnabled;
    assert TaskOk(s, t);
    var s' := Place(s, t, outcome);
    PlaceIsKeyStep(s, t, outcome);
    KeyStepKeepsInv(s, t, s'.audits, s'.accepted);
    assert WithoutTask(s', t) == WithoutTask(s.(audits := s'.audits, accepted := s'.accepted), t);
    AnsweredTaskOk(s, t, outcome);
    AddTaskKeepsInv(s', t);
  }

  lemma AnsweredTaskOk(s: State, t: TaskId, outcome: Outcome)
    requires t in s.tasks && TaskOk(s, t) && BrokerOk(s) && Enabled(s, PlaceEvent(t, outcome))
    requires outcome.Found? || outcome.Sent? || outcome.Rejected?
    ensures t in Place(s, t, outcome).tasks && TaskOk(Place(s, t, outcome), t)
    ensures var s' := Place(s, t, outcome);
            !MaySend(s'.tasks[t].phase) &&
            forall u :: u in s'.tasks && u != t && s'.tasks[u].group == s'.tasks[t].group ==> !MaySend(s'.tasks[u].phase)
  {
    assert s.tasks[t].leg in s.accepted ==> AcceptedOk(s, s.tasks[t].leg);
  }

  /** Rows that differ only in leases and explanations look the same to broker and workers. */
  lemma NoteChangeKeepsInv(s: State, after: Db)
    requires Inv(s) && DbOk(after) && OnlyNotesDiffer(s.db, after)
    ensures Inv(s.(db := after))
  {
    hide DbOk;
    var s' := s.(db := after);
    forall k | k in s.accepted ensures AcceptedOk(s', k) { assert AcceptedOk(s, k); }
    forall t | t in s.tasks
      ensures TaskOk(s', t)
    {
      assert TaskOk(s, t);
      assert MarkedBy(after, s.tasks[t].leg) == MarkedBy(s.db, s.tasks[t].leg);
    }
  }

  lemma NotesKeepInv(s: State, e: Event)
    requires Inv(s) && (e.ExtendEvent? || e.AnnotateEvent?)
    ensures Inv(Apply(s, e))
  {
    hide DbOk, BrokerOk, TaskOk, Extend, Annotate;
    match e {
      case ExtendEvent(g, until, text) =>
        ExtendKeepsDb(s.db, g, until, text);
        ExtendIsNote(s.db, g, until, text);
      case AnnotateEvent(leg, text) =>
        AnnotateKeepsDb(s.db, leg, text);
        AnnotateIsNote(s.db, leg, text);
    }
    NoteChangeKeepsInv(s, Apply(s, e).db);
  }

  /** Only notes and lease ends differ, and no retirement marker. */
  ghost predicate OnlyNotesDiffer(before: Db, after: Db) {
    && after.legs.Keys == before.legs.Keys && after.groups.Keys == before.groups.Keys
    && (forall l :: l in after.legs ==>
          after.legs[l] == before.legs[l].(note := after.legs[l].note) &&
          (after.legs[l].note != before.legs[l].note ==> !after.legs[l].note.RetiredBy? && !before.legs[l].note.RetiredBy?))
    && (forall g :: g in after.groups ==>
          after.groups[g] == before.groups[g].(leaseExpires := after.groups[g].leaseExpires, note := after.groups[g].note))
  }

  lemma ExtendIsNote(db: Db, g: GroupId, until: Time, text: string)
    ensures OnlyNotesDiffer(db, Extend(db, g, until, text))
  {
  }

  lemma AnnotateIsNote(db: Db, leg: LegId, text: string)
    requires DbOk(db)
    ensures OnlyNotesDiffer(db, Annotate(db, leg, text))
  {
    hide DbOk;
    if leg in db.legs && db.legs[leg].note.RetiredBy? { MarkStaysInGroup(db, leg, db.legs[leg].note.fireLeg); }
  }

  lemma TradesKeepInv(s: State, trades: seq<Trade>)
    requires Inv(s) && TradesAdvance(s.db.trades, trades)
    ensures Inv(Apply(s, TradesEvent(trades)))
  {
    hide DbOk, TradesAdvance, TaskOk;
    var s' := s.(db := s.db.(trades := trades));
    TradesKeepDb(s.db, trades);
    forall k | k in s.accepted ensures AcceptedOk(s', k) { assert AcceptedOk(s, k); }
    forall t | t in s.tasks ensures TaskOk(s', t) { TradesSpareTask(s, trades, t); }
  }

  lemma TradesSpareTask(s: State, trades: seq<Trade>, t: TaskId)
    requires t in s.tasks && TaskOk(s, t)
    ensures TaskOk(s.(db := s.db.(trades := trades)), t)
  {
    assert MarkedBy(s.db.(trades := trades), s.tasks[t].leg) == MarkedBy(s.db, s.tasks[t].leg);
    hide MarkedBy;
  }

  lemma ReadAuditKeepsInv(s: State, t: TaskId)
    requires Inv(s) && Enabled(s, ReadAuditEvent(t))
    ensures Inv(Apply(s, ReadAuditEvent(t)))
  {
    hide DbOk, AcceptedOk, TaskOk;
    PhaseChangeKeepsInv(s, t, Acknowledged(s.audits[s.tasks[t].leg].order));
  }

  /** Every step keeps the invariant. */
  lemma StepKeepsInv(s: State, e: Event)
    requires Inv(s) && Enabled(s, e) && Disciplined(s, e)
    ensures Inv(Apply(s, e))
  {
    hide Inv, SettleNoSend, RetireLeg, Place;
    match e {
      case ArmEvent(req, canonical, existing, newId, now) => ArmKeepsInv(s, req, canonical, existing, newId, now);
      case ResizeEvent(_, _, _) => QuantityEventsKeepInv(s, e);
      case ShrinkEvent(_, _, _) => QuantityEventsKeepInv(s, e);
      case CancelEvent(user, leg) =>
        if CancelLeg(s.db, user, leg).Success? { RetireKeepsInv(s, leg, Cancelled, "All bracket legs cancelled"); }
      case OrphanEvent(leg) => RetireKeepsInv(s, leg, Cancelled, "All bracket legs orphaned from the broker position");
      case ExpireEvent(leg, now) =>
        if ExpireLeg(s.db, leg, now).Some? { RetireKeepsInv(s, leg, Expired, "All bracket legs expired"); }
      case ClaimEvent(t, leg, worker, now) => ClaimKeepsInv(s, t, leg, worker, now);
      case UnclaimEvent(t, status) =>
        SettleKeepsInv(s, t, s.tasks[t].phase.retired, status, NoNote, "Bracket fire was unclaimed before broker placement");
      case PlaceEvent(t, outcome) => PlaceKeepsInv(s, t, outcome);
      case SettleEvent(t, text) =>
        SettleKeepsInv(s, t, s.tasks[t].phase.retired, Failed, Message(text), "Bracket fire was rejected before broker acceptance");
      case FinishEvent(t) => FinishKeepsInv(s, t);
      case TakeOverEvent(t, g, worker, now) => TakeOverKeepsInv(s, t, g, worker, now);
      case PrepareEvent(t, now) => PrepareKeepsInv(s, t, now);
      case ReadAuditEvent(t) => ReadAuditKeepsInv(s, t);
      case StopEvent(t) => StopKeepsInv(s, t);
      case ExtendEvent(_, _, _) => NotesKeepInv(s, e);
      case AnnotateEvent(_, _) => NotesKeepInv(s, e);
      case TradesEvent(trades) => TradesKeepInv(s, trades);
    }
  }
}
