/**
 Where the bracket protocol's guarantee ends. Recovery treats every error of place that is not in
 the uncertain list as proof that nothing was sent, but TradingService.place checks the kill
 switch before it looks at the idempotency key, so such an error can hide an earlier accepted
 send. The first lemma says exactly when the error is proof; the runs show what follows
 otherwise, what follows when a claimant outlives its lease, and what follows when a process meets
 an older attempt of its own: the lease names a process, not an attempt.
 */
module BracketLimits {
  import opened Wrappers
  import opened BracketRules
  import opened BracketInvariant
  import opened BracketProtocol
  import opened BracketTheorems

  /** Two states no reader of the database can tell apart. */
  ghost predicate SameDatabase(s: State, s': State) {
    s'.db == s.db && s'.audits == s.audits && s'.tasks == s.tasks
  }

  /**
   An error met before the key was looked at proves that the recovered leg was never accepted
   exactly when the key has no audit row.
   */
  lemma EarlyRefusalConclusiveIff(s: State, t: TaskId)
    requires Inv(s) && t in s.tasks && s.tasks[t].phase.Recovering?
    ensures s.tasks[t].leg !in s.audits <==>
            (forall s' :: SameDatabase(s, s') && Inv(s') ==> s.tasks[t].leg !in s'.accepted)
  {
    hide DbOk;
    var leg := s.tasks[t].leg;
    if leg !in s.audits {
      forall s' | SameDatabase(s, s') && Inv(s')
        ensures leg !in s'.accepted
      {
        assert leg in s'.accepted ==> AcceptedOk(s', leg);
      }
    } else if leg in s.accepted {
      assert SameDatabase(s, s);
    } else {
      var s' := s.(accepted := s.accepted[leg := Close("", s.tasks[t].phase.quantity)]);
      AcceptanceMayBeHidden(s, t);
      assert SameDatabase(s, s');
    }
  }

  /** While the audit is still pending, "accepted, acknowledgement lost" explains the same database. */
  lemma AcceptanceMayBeHidden(s: State, t: TaskId)
    requires Inv(s) && t in s.tasks && s.tasks[t].phase.Recovering?
    requires s.tasks[t].leg in s.audits && s.tasks[t].leg !in s.accepted
    ensures Inv(s.(accepted := s.accepted[s.tasks[t].leg := Close("", s.tasks[t].phase.quantity)]))
  {
    hide DbOk, MarkedBy;
    var leg := s.tasks[t].leg;
    var s' := s.(accepted := s.accepted[leg := Close("", s.tasks[t].phase.quantity)]);
    assert TaskOk(s, t);
    ClaimedGroup(s.db, s.tasks[t].group);
    forall k | k in s'.accepted
      ensures AcceptedOk(s', k)
    {
      if k != leg { assert AcceptedOk(s, k); }
    }
    forall u | u in s.tasks
      ensures TaskOk(s', u)
    {
      assert TaskOk(s, u);
    }
  }

  // ---------------------------------------------------------------------------
  // A refusal that hides an acceptance
  // ---------------------------------------------------------------------------

  /** Reached by a run in which only the named events were not disciplined. */
  ghost predicate ReachedBut(s: State, bad: set<Event>) {
    exists states: seq<State>, events: seq<Event> ::
      && CodeRun(states, events) && states[|events|] == s
      && forall i :: 0 <= i < |events| ==> Disciplined(states[i], events[i]) || events[i] in bad
  }

  lemma ReachNext(s: State, e: Event, s': State, bad: set<Event>)
    requires ReachedBut(s, bad) && Enabled(s, e) && Apply(s, e) == s' && (Disciplined(s, e) || e in bad)
    ensures ReachedBut(s', bad)
  {
    hide Apply, Enabled, Disciplined;
    var states: seq<State>, events: seq<Event> :|
      && CodeRun(states, events) && states[|events|] == s
      && forall i :: 0 <= i < |events| ==> Disciplined(states[i], events[i]) || events[i] in bad;
    var (states', events') := (states + [s'], events + [e]);
    assert CodeRun(states', events');
    assert states'[|events'|] == s';
  }

  lemma ReachInit(bad: set<Event>)
    ensures ReachedBut(INIT, bad)
  {
    var states: seq<State>, events: seq<Event> := [INIT], [];
    assert CodeRun(states, events) && states[|events|] == INIT;
  }

  /** The target claimed for worker 11, with its stop retired. */
  lemma ReachClaimed(bad: set<Event>)
    ensures ReachedBut(CLAIMED, bad)
  {
    hide Apply, Enabled, Disciplined, ReachedBut;
    ReachInit(bad);
    ArmTargetStep();
    ReachNext(INIT, ARM_TARGET, ONE_LEG, bad);
    ArmStopStep();
    ReachNext(ONE_LEG, ARM_STOP, ARMED, bad);
    ClaimTargetStep(ARMED, 0, None, 11, 0);
    ReachNext(ARMED, ClaimEvent(0, 1, 11, 0), CLAIMED, bad);
  }

  ghost predicate TwoClosesOfOneBracket(s: State) {
    exists k, m :: k != m && k in s.accepted && m in s.accepted && k in s.db.legs && m in s.db.legs &&
                   s.db.legs[k].group == s.db.legs[m].group
  }

  const SCOPE := Scope("user", Webull, Live, "account", "SPY260717C00503000", Sell)
  const ARM_TARGET := ArmEvent(ArmRequest(SCOPE, Target, 1, 7, 900_000), None, None, 1, 0)
  const ARM_STOP := ArmEvent(ArmRequest(SCOPE, Stop, 1, 7, 900_000), Some(7), None, 2, 0)
  const ARM_TARGET_AGAIN := ArmEvent(ArmRequest(SCOPE, Target, 1, 7, 900_000), Some(7), Some(1), 3, 45_000)

  function TargetLeg(status: LegStatus, at: Option<Time>, note: Note): Leg {
    Leg("user", Live, 7, Target, 1, status, at, None, note, 900_000)
  }

  function StopLeg(status: LegStatus, at: Option<Time>, note: Note): Leg {
    Leg("user", Live, 7, Stop, 1, status, at, None, note, 900_000)
  }

  function Bracket(status: GroupStatus, fireLeg: Option<LegId>, owner: Option<WorkerId>, until: Option<Time>, note: Option<string>): Group {
    Group(SCOPE, status, 1, fireLeg, owner, until, 0, note)
  }

  function Rows(group: Group, target: Leg, stop: Leg): Db {
    Db(map[7 := group], map[1 := target, 2 := stop], [])
  }

  /** Both legs armed. */
  function BothArmed(note: Option<string>): Db {
    Rows(Bracket(GroupWorking, None, None, None, note), TargetLeg(Working, None, NoNote), StopLeg(Working, None, NoNote))
  }

  /** The target claimed, the stop retired. */
  function TargetClaimed(owner: WorkerId, at: Time, until: Time): Db {
    Rows(Bracket(GroupPendingFire, Some(1), Some(owner), Some(until), None),
         TargetLeg(PendingFire, Some(at), NoNote), StopLeg(Cancelled, None, RetiredBy(1)))
  }

  /** The claim unwound: the target failed, the stop armed again. */
  function TargetRefused(at: Time, text: string): Db {
    Rows(Bracket(GroupWorking, None, None, None, Some(text)), TargetLeg(Failed, Some(at), Message(text)), StopLeg(Working, None, NoNote))
  }

  /** The stop claimed by worker 12 after the target failed. */
  function StopClaimed(targetAt: Time, text: string, at: Time): Db {
    Rows(Bracket(GroupPendingFire, Some(2), Some(12), Some(at + 30_000), None),
         TargetLeg(Failed, Some(targetAt), Message(text)), StopLeg(PendingFire, Some(at), NoNote))
  }

  function OnTarget(worker: WorkerId, phase: Phase): Task {
    Task(worker, 7, 1, phase)
  }

  const STOP_TASK := Task(12, 7, 2, Firing({}, 1))
  const ONE_LEG := INIT.(db := Db(map[7 := Bracket(GroupWorking, None, None, None, None)], map[1 := TargetLeg(Working, None, NoNote)], []))
  const ARMED := INIT.(db := BothArmed(None))
  const CLAIMED := State(TargetClaimed(11, 0, 30_000), map[], map[], map[0 := OnTarget(11, Firing({2}, 1))])

  // ---------------------------------------------------------------------------
  // The steps these runs are made of
  // ---------------------------------------------------------------------------

  ghost predicate StepsTo(s: State, e: Event, s': State) {
    Enabled(s, e) && Apply(s, e) == s'
  }

  lemma ArmTargetStep()
    ensures Enabled(INIT, ARM_TARGET) && Disciplined(INIT, ARM_TARGET) && Apply(INIT, ARM_TARGET) == ONE_LEG
  {
    assert Apply(INIT, ARM_TARGET).db.legs == ONE_LEG.db.legs;
  }

  lemma ArmStopStep()
    ensures Enabled(ONE_LEG, ARM_STOP) && Disciplined(ONE_LEG, ARM_STOP) && Apply(ONE_LEG, ARM_STOP) == ARMED
  {
    assert Apply(ONE_LEG, ARM_STOP).db.legs == ARMED.db.legs;
  }

  lemma ClaimTargetStep(s: State, t: TaskId, note: Option<string>, worker: WorkerId, now: Time)
    requires s.db == BothArmed(note) && t !in s.tasks
    ensures var e := ClaimEvent(t, 1, worker, now);
            StepsTo(s, e, s.(db := TargetClaimed(worker, now, now + 30_000), tasks := s.tasks[t := OnTarget(worker, Firing({2}, 1))])) &&
            (s.tasks == map[] ==> Disciplined(s, e))
  {
    hide Claim, UnresolvedClose, WorkingSiblings;
    ClaimsBoth(note, worker, now);
  }

  lemma ClaimsBoth(note: Option<string>, worker: WorkerId, now: Time)
    ensures Claim(BothArmed(note), 1, worker, now) == Some(Claimed(TargetClaimed(worker, now, now + 30_000), {2}, 1))
  {
    var db := BothArmed(note);
    assert !UnresolvedClose(db, SCOPE, 7);
    assert WorkingSiblings(db, 1) == {2};
    var claim := Claim(db, 1, worker, now).value;
    assert claim.db.legs == TargetClaimed(worker, now, now + 30_000).legs;
    assert claim.db.groups == TargetClaimed(worker, now, now + 30_000).groups;
  }

  /** The claim of worker 11 taken over under task 1 after its lease has run out. */
  lemma TakeOverTargetStep(s: State, worker: WorkerId)
    requires s.db == TargetClaimed(11, 0, 30_000) && 1 !in s.tasks
    ensures var e := TakeOverEvent(1, 7, worker, 40_000);
            StepsTo(s, e, s.(db := TargetClaimed(worker, 0, 70_000), tasks := s.tasks[1 := OnTarget(worker, Leased(1))])) &&
            ((forall t :: t in s.tasks ==> !MaySend(s.tasks[t].phase) && s.tasks[t].worker != worker) ==> Disciplined(s, e))
  {
  }

  lemma PrepareTargetStep(s: State, worker: WorkerId)
    requires s.db == TargetClaimed(worker, 0, 70_000) && 1 in s.tasks && s.tasks[1] == OnTarget(worker, Leased(1))
    ensures var e := PrepareEvent(1, 40_000);
            StepsTo(s, e, s.(tasks := s.tasks[1 := OnTarget(worker, Recovering({2}, 1))])) && Disciplined(s, e)
  {
    var prepared := Prepare(s.db, 1, 7, 40_000).value;
    assert WorkingSiblings(s.db, 1) == {};
    assert prepared.db.legs == s.db.legs;
    assert prepared.siblings == {2};
  }

  /** The take-over and its preparation, in one go. */
  lemma ReachRecovering(s: State, worker: WorkerId, bad: set<Event>)
    requires ReachedBut(s, bad) && s.db == TargetClaimed(11, 0, 30_000) && 1 !in s.tasks
    requires TakeOverEvent(1, 7, worker, 40_000) in bad ||
             (forall t :: t in s.tasks ==> !MaySend(s.tasks[t].phase) && s.tasks[t].worker != worker)
    ensures ReachedBut(s.(db := TargetClaimed(worker, 0, 70_000), tasks := s.tasks[1 := OnTarget(worker, Recovering({2}, 1))]), bad)
  {
    hide Apply, Enabled, Disciplined, ReachedBut;
    var taken := s.(db := TargetClaimed(worker, 0, 70_000), tasks := s.tasks[1 := OnTarget(worker, Leased(1))]);
    TakeOverTargetStep(s, worker);
    ReachNext(s, TakeOverEvent(1, 7, worker, 40_000), taken, bad);
    PrepareTargetStep(taken, worker);
    var prepared := taken.(tasks := taken.tasks[1 := OnTarget(worker, Recovering({2}, 1))]);
    ReachNext(taken, PrepareEvent(1, 40_000), prepared, bad);
    assert prepared.tasks == s.tasks[1 := OnTarget(worker, Recovering({2}, 1))];
  }

  /** The broker rejects the target and its key is freed. */
  lemma RejectionStep(s: State, t: TaskId, worker: WorkerId, phase: Phase)
    requires t in s.tasks && s.tasks[t] == OnTarget(worker, phase) && CallsPlace(phase) && RetiredSet(phase) == {2} && 1 !in s.audits
    ensures var e := PlaceEvent(t, Rejected(true));
            StepsTo(s, e, s.(tasks := s.tasks[t := OnTarget(worker, Refused({2}))])) && Disciplined(s, e)
  {
    assert s.audits - {1} == s.audits;
  }

  lemma SendStep(s: State, t: TaskId, task: Task, order: OrderId)
    requires t in s.tasks && s.tasks[t] == task && CallsPlace(task.phase) && task.phase.quantity == 1 && task.leg !in s.audits
    ensures var e := PlaceEvent(t, Sent(order, true)); StepsTo(s, e, AfterSent(s, t, task, order)) && Disciplined(s, e)
  {
  }

  function AfterSent(s: State, t: TaskId, task: Task, order: OrderId): State {
    s.(audits := s.audits[task.leg := CompletedAudit(order)], accepted := s.accepted[task.leg := Close(order, 1)],
       tasks := s.tasks[t := task.(phase := Acknowledged(order))])
  }

  lemma SettleTargetStep(s: State, t: TaskId, worker: WorkerId, at: Time, until: Time, text: string)
    requires s.db == TargetClaimed(worker, at, until) && t in s.tasks && s.tasks[t] == OnTarget(worker, Refused({2}))
    ensures var e := SettleEvent(t, text);
            StepsTo(s, e, s.(db := TargetRefused(at, text), tasks := s.tasks - {t})) && Disciplined(s, e)
  {
    hide SettleNoSend, TargetRefused, TargetClaimed;
    SettlesTarget(worker, at, until, text);
  }

  lemma SettlesTarget(worker: WorkerId, at: Time, until: Time, text: string)
    ensures SettleNoSend(TargetClaimed(worker, at, until), 1, {2}, Failed, Message(text), worker,
                         "Bracket fire was rejected before broker acceptance") == Some(TargetRefused(at, text))
  {
    var db := TargetClaimed(worker, at, until);
    assert HoldsClaim(db, 1, worker) && Restorable(db, 1, 2);
    var mid := Released(db, 1, {2}, Failed, Message(text));
    assert mid.legs == TargetRefused(at, text).legs;
    assert mid.groups == TargetRefused(at, text).groups;
    assert HasActiveLeg(mid, 7) by { assert mid.legs[2].status == Working; }
  }

  lemma ClaimStopStep(s: State, t: TaskId, targetAt: Time, text: string, now: Time)
    requires s.db == TargetRefused(targetAt, text) && t !in s.tasks && forall u :: u in s.tasks ==> s.tasks[u].leg == 1
    ensures var e := ClaimEvent(t, 2, 12, now);
            StepsTo(s, e, s.(db := StopClaimed(targetAt, text, now), tasks := s.tasks[t := STOP_TASK])) && Disciplined(s, e)
  {
    assert !UnresolvedClose(s.db, SCOPE, 7);
    assert WorkingSiblings(s.db, 2) == {};
    var claim := Claim(s.db, 2, 12, now).value;
    assert claim.db.legs == StopClaimed(targetAt, text, now).legs;
    assert claim.db.groups == StopClaimed(targetAt, text, now).groups;
  }

  /** After the target's claim was unwound, the stop fires and its close is accepted. */
  lemma ReachStopSent(s: State, t: TaskId, targetAt: Time, text: string, now: Time, bad: set<Event>)
    requires ReachedBut(s, bad) && s.db == TargetRefused(targetAt, text) && t !in s.tasks && 2 !in s.audits
    requires forall u :: u in s.tasks ==> s.tasks[u].leg == 1
    ensures ReachedBut(AfterSent(s.(db := StopClaimed(targetAt, text, now), tasks := s.tasks[t := STOP_TASK]), t, STOP_TASK, "B"), bad)
  {
    hide Apply, Enabled, Disciplined, ReachedBut;
    var claimed := s.(db := StopClaimed(targetAt, text, now), tasks := s.tasks[t := STOP_TASK]);
    ClaimStopStep(s, t, targetAt, text, now);
    ReachNext(s, ClaimEvent(t, 2, 12, now), claimed, bad);
    SendStep(claimed, t, STOP_TASK, "B");
    ReachNext(claimed, PlaceEvent(t, Sent("B", true)), AfterSent(claimed, t, STOP_TASK, "B"), bad);
  }

  lemma BothAccepted(s: State)
    requires 1 in s.accepted && 2 in s.accepted && 1 in s.db.legs && 2 in s.db.legs && s.db.legs[1].group == s.db.legs[2].group
    ensures TwoClosesOfOneBracket(s)
  {
  }

  // ---------------------------------------------------------------------------
  // A refusal that hides an acceptance
  // ---------------------------------------------------------------------------

  lemma LostReplyStep(order: Option<OrderId>)
    ensures var e := PlaceEvent(0, Unknown(order));
            StepsTo(CLAIMED, e, AfterLostReply(order)) && Disciplined(CLAIMED, e)
  {
    assert Apply(CLAIMED, PlaceEvent(0, Unknown(order))).tasks == map[];
  }

  function AfterLostReply(order: Option<OrderId>): State {
    State(CLAIMED.db, map[1 := PendingAudit], if order.None? then map[] else map[1 := Close(order.value, 1)], map[])
  }

  lemma ReachLostReply(order: Option<OrderId>, bad: set<Event>)
    ensures ReachedBut(AfterLostReply(order).(db := TargetClaimed(12, 0, 70_000), tasks := map[1 := OnTarget(12, Recovering({2}, 1))]), bad)
  {
    hide Apply, Enabled, Disciplined, ReachedBut;
    ReachClaimed(bad);
    LostReplyStep(order);
    ReachNext(CLAIMED, PlaceEvent(0, Unknown(order)), AfterLostReply(order), bad);
    ReachRecovering(AfterLostReply(order), 12, bad);
  }

  /** Two disciplined runs give a recovering process the same database, one with the order accepted and one without. */
  lemma HiddenAcceptanceIsReachable()
    ensures exists s: State, s': State ::
              && ReachedBut(s, {}) && ReachedBut(s', {}) && SameDatabase(s, s')
              && 1 in s.tasks && s.tasks[1].phase.Recovering? && s.tasks[1].leg in s.accepted && s.tasks[1].leg !in s'.accepted
  {
    hide ReachedBut;
    ReachLostReply(Some("A"), {});
    ReachLostReply(None, {});
    var tasks := map[1 := OnTarget(12, Recovering({2}, 1))];
    var s := AfterLostReply(Some("A")).(db := TargetClaimed(12, 0, 70_000), tasks := tasks);
    var s' := AfterLostReply(None).(db := TargetClaimed(12, 0, 70_000), tasks := tasks);
    assert SameDatabase(s, s');
  }

  lemma RefusalStep(s: State)
    requires 1 in s.tasks && s.tasks[1] == OnTarget(12, Recovering({2}, 1))
    ensures StepsTo(s, PlaceEvent(1, TurnedAway), s.(tasks := s.tasks[1 := OnTarget(12, Refused({2}))]))
  {
  }

  /**
   The counterexample: the target's acknowledgement is lost, recovery meets the kill switch, and
   the stop it re-arms is accepted as a second close. Only the refusal step is not disciplined.
   */
  lemma InconclusiveRefusalDoublesClose()
    ensures exists s: State :: ReachedBut(s, {PlaceEvent(1, TurnedAway)}) && TwoClosesOfOneBracket(s)
  {
    hide Apply, Enabled, Disciplined, ReachedBut;
    var bad := {PlaceEvent(1, TurnedAway)};
    var text := "TRADING_DISABLED";
    ReachLostReply(Some("A"), bad);
    var s6 := AfterLostReply(Some("A")).(db := TargetClaimed(12, 0, 70_000), tasks := map[1 := OnTarget(12, Recovering({2}, 1))]);
    var s7 := s6.(tasks := s6.tasks[1 := OnTarget(12, Refused({2}))]);
    RefusalStep(s6);
    ReachNext(s6, PlaceEvent(1, TurnedAway), s7, bad);
    var s8 := s7.(db := TargetRefused(0, text), tasks := s7.tasks - {1});
    SettleTargetStep(s7, 1, 12, 0, 70_000, text);
    ReachNext(s7, SettleEvent(1, text), s8, bad);
    ReachStopSent(s8, 2, 0, text, 50_000, bad);
    BothAccepted(AfterSent(s8.(db := StopClaimed(0, text, 50_000), tasks := s8.tasks[2 := STOP_TASK]), 2, STOP_TASK, "B"));
  }

  // ---------------------------------------------------------------------------
  // A claimant that outlives its lease
  // ---------------------------------------------------------------------------

  /**
   The lease alone does not stop a claimant that stalls between its claim and its send: another
   worker may recover, be refused and fire the stop before the target's order goes out too. The
   one step that is not disciplined is the take-over, with the stalled claimant still able to send.
   */
  lemma StalledClaimantDoublesClose()
    ensures exists s: State :: ReachedBut(s, {TakeOverEvent(1, 7, 12, 40_000)}) && TwoClosesOfOneBracket(s)
  {
    hide Apply, Enabled, Disciplined, ReachedBut;
    var bad := {TakeOverEvent(1, 7, 12, 40_000)};
    var text := "REJECTED";
    ReachClaimed(bad);
    ReachRecovering(CLAIMED, 12, bad);
    var s5 := CLAIMED.(db := TargetClaimed(12, 0, 70_000), tasks := CLAIMED.tasks[1 := OnTarget(12, Recovering({2}, 1))]);
    var s7 := ReachUnwound(s5, 1, 12, Recovering({2}, 1), 70_000, text, bad);
    ReachStopSent(s7, 2, 0, text, 50_000, bad);
    var s9 := AfterSent(s7.(db := StopClaimed(0, text, 50_000), tasks := s7.tasks[2 := STOP_TASK]), 2, STOP_TASK, "B");
    SendStep(s9, 0, OnTarget(11, Firing({2}, 1)), "A");
    var s10 := AfterSent(s9, 0, OnTarget(11, Firing({2}, 1)), "A");
    ReachNext(s9, PlaceEvent(0, Sent("A", true)), s10, bad);
    BothAccepted(s10);
  }

  /** The target is rejected to the holder of its claim, which unwinds it. */
  lemma ReachUnwound(s: State, t: TaskId, worker: WorkerId, phase: Phase, until: Time, text: string, bad: set<Event>) returns (unwound: State)
    requires ReachedBut(s, bad) && s.db == TargetClaimed(worker, 0, until) && 1 !in s.audits
    requires t in s.tasks && s.tasks[t] == OnTarget(worker, phase) && CallsPlace(phase) && RetiredSet(phase) == {2}
    ensures ReachedBut(unwound, bad) && unwound == s.(db := TargetRefused(0, text), tasks := s.tasks - {t})
  {
    hide Apply, Enabled, Disciplined, ReachedBut;
    var refused := s.(tasks := s.tasks[t := OnTarget(worker, Refused({2}))]);
    RejectionStep(s, t, worker, phase);
    ReachNext(s, PlaceEvent(t, Rejected(true)), refused, bad);
    SettleTargetStep(refused, t, worker, 0, until, text);
    unwound := refused.(db := TargetRefused(0, text), tasks := refused.tasks - {t});
    ReachNext(refused, SettleEvent(t, text), unwound, bad);
    assert unwound.tasks == s.tasks - {t};
  }

  // ---------------------------------------------------------------------------
  // A process that meets its own older attempt
  // ---------------------------------------------------------------------------

  /** The target is rejected to its claimant, which has not yet unwound its claim. */
  lemma ReachLeftover(bad: set<Event>)
    ensures ReachedBut(CLAIMED.(tasks := map[0 := OnTarget(11, Refused({2}))]), bad)
  {
    hide Apply, Enabled, Disciplined, ReachedBut;
    ReachClaimed(bad);
    RejectionStep(CLAIMED, 0, 11, Firing({2}, 1));
    assert CLAIMED.tasks[0 := OnTarget(11, Refused({2}))] == map[0 := OnTarget(11, Refused({2}))];
    ReachNext(CLAIMED, PlaceEvent(0, Rejected(true)), CLAIMED.(tasks := map[0 := OnTarget(11, Refused({2}))]), bad);
  }

  /**
   A process that takes over the claim of its own fire, which has only its unwinding left to do:
   the take-over sends the order, the old unwinding still finds its process named on the lease and
   re-arms the stop, and the stop is sent too. Nobody could still send when the take-over, the one
   step that is not disciplined, was made.
   */
  lemma OwnTakeOverDoublesClose()
    ensures exists s: State :: ReachedBut(s, {TakeOverEvent(1, 7, 11, 40_000)}) && TwoClosesOfOneBracket(s)
  {
    hide Apply, Enabled, Disciplined, ReachedBut;
    var bad := {TakeOverEvent(1, 7, 11, 40_000)};
    var text := "REJECTED";
    ReachLeftover(bad);
    var s4 := CLAIMED.(tasks := map[0 := OnTarget(11, Refused({2}))]);
    ReachRecovering(s4, 11, bad);
    var s6 := s4.(db := TargetClaimed(11, 0, 70_000), tasks := s4.tasks[1 := OnTarget(11, Recovering({2}, 1))]);
    SendStep(s6, 1, OnTarget(11, Recovering({2}, 1)), "A");
    var s7 := AfterSent(s6, 1, OnTarget(11, Recovering({2}, 1)), "A");
    ReachNext(s6, PlaceEvent(1, Sent("A", true)), s7, bad);
    SettleTargetStep(s7, 0, 11, 0, 70_000, text);
    var s8 := s7.(db := TargetRefused(0, text), tasks := s7.tasks - {0});
    ReachNext(s7, SettleEvent(0, text), s8, bad);
    ReachStopSent(s8, 2, 0, text, 50_000, bad);
    BothAccepted(AfterSent(s8.(db := StopClaimed(0, text, 50_000), tasks := s8.tasks[2 := STOP_TASK]), 2, STOP_TASK, "B"));
  }

  lemma ArmAgainStep(s: State, text: string)
    requires s.db == TargetRefused(0, text)
    ensures StepsTo(s, ARM_TARGET_AGAIN, s.(db := BothArmed(Some(text)))) && Disciplined(s, ARM_TARGET_AGAIN)
  {
    assert !UnresolvedClose(s.db, SCOPE, 7);
    assert Apply(s, ARM_TARGET_AGAIN).db.legs == BothArmed(Some(text)).legs;
  }

  /**
   The same by a second claim: another process recovers and unwinds the first, the user arms the
   target again under its permanent id, and the process with the old unwinding left claims it anew.
   The new claim is the one step that is not disciplined.
   */
  lemma OwnReclaimDoublesClose()
    ensures exists s: State :: ReachedBut(s, {ClaimEvent(2, 1, 11, 50_000)}) && TwoClosesOfOneBracket(s)
  {
    hide Apply, Enabled, Disciplined, ReachedBut;
    var bad := {ClaimEvent(2, 1, 11, 50_000)};
    var text := "REJECTED";
    ReachLeftover(bad);
    var s4 := CLAIMED.(tasks := map[0 := OnTarget(11, Refused({2}))]);
    ReachRecovering(s4, 12, bad);
    var s6 := s4.(db := TargetClaimed(12, 0, 70_000), tasks := s4.tasks[1 := OnTarget(12, Recovering({2}, 1))]);
    var s7 := ReachUnwound(s6, 1, 12, Recovering({2}, 1), 70_000, text, bad);
    ArmAgainStep(s7, text);
    var s8 := s7.(db := BothArmed(Some(text)));
    ReachNext(s7, ARM_TARGET_AGAIN, s8, bad);
    ClaimTargetStep(s8, 2, Some(text), 11, 50_000);
    var s9 := s8.(db := TargetClaimed(11, 50_000, 80_000), tasks := s8.tasks[2 := OnTarget(11, Firing({2}, 1))]);
    ReachNext(s8, ClaimEvent(2, 1, 11, 50_000), s9, bad);
    SendStep(s9, 2, OnTarget(11, Firing({2}, 1)), "A");
    var s10 := AfterSent(s9, 2, OnTarget(11, Firing({2}, 1)), "A");
    ReachNext(s9, PlaceEvent(2, Sent("A", true)), s10, bad);
    SettleTargetStep(s10, 0, 11, 50_000, 80_000, text);
    var s11 := s10.(db := TargetRefused(50_000, text), tasks := s10.tasks - {0});
    ReachNext(s10, SettleEvent(0, text), s11, bad);
    ReachStopSent(s11, 3, 50_000, text, 60_000, bad);
    BothAccepted(AfterSent(s11.(db := StopClaimed(50_000, text, 60_000), tasks := s11.tasks[3 := STOP_TASK]), 3, STOP_TASK, "B"));
  }
}
