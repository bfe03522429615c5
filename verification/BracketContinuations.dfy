/**
 The other side of the conditions a run is held to. From every state of the invariant, a step that breaks
 one of them while a sibling is at stake can be continued, without breaking any of them again, until two
 closes of one bracket are accepted.
 */
module BracketContinuations {
  import opened Wrappers
  import opened BracketRules
  import opened BracketInvariant
  import opened BracketProtocol
  import opened BracketTheorems
  import opened BracketLimits

  ghost predicate Path(s: State, events: seq<Event>, s': State)
    decreases |events|
  {
    if events == [] then s' == s
    else Enabled(s, events[0]) && Disciplined(s, events[0]) && Path(Apply(s, events[0]), events[1..], s')
  }

  /** Some disciplined continuation of s ends with two closes of one bracket. */
  ghost predicate CanDouble(s: State) {
    exists events, s' :: Path(s, events, s') && TwoClosesOfOneBracket(s')
  }

  lemma DoubledNow(s: State)
    requires TwoClosesOfOneBracket(s)
    ensures CanDouble(s)
  {
    assert Path(s, [], s);
  }

  lemma DoubledLater(s: State, e: Event, after: State)
    requires Enabled(s, e) && Disciplined(s, e) && Apply(s, e) == after && CanDouble(after)
    ensures CanDouble(s)
  {
    hide Enabled, Disciplined, Apply, TwoClosesOfOneBracket;
    var events, s' :| Path(after, events, s') && TwoClosesOfOneBracket(s');
    var longer := [e] + events;
    assert longer[0] == e && longer[1..] == events;
    assert Path(s, longer, s');
  }

  // ---------------------------------------------------------------------------
  // Somebody new
  // ---------------------------------------------------------------------------

  lemma {:induction false} Unused(used: set<nat>) returns (n: nat)
    ensures forall x :: x in used ==> x < n
    decreases used
  {
    if used == {} {
      n := 0;
    } else {
      var x :| x in used;
      var m := Unused(used - {x});
      n := if x < m then m else x + 1;
      assert used == (used - {x}) + {x};
    }
  }

  lemma Newcomer(s: State) returns (t: TaskId, worker: WorkerId)
    ensures t !in s.tasks && forall u :: u in s.tasks ==> s.tasks[u].worker != worker
  {
    t := Unused(s.tasks.Keys);
    assert t !in s.tasks;
    var workers := set u | u in s.tasks :: s.tasks[u].worker;
    worker := Unused(workers);
    assert forall u :: u in s.tasks ==> s.tasks[u].worker in workers;
  }

  // ---------------------------------------------------------------------------
  // The second close
  // ---------------------------------------------------------------------------

  /** A sibling armed again in the group of an accepted leg, with nothing in the way of its claim. */
  ghost predicate SiblingArmed(s: State, leg: LegId, l: LegId) {
    && leg in s.accepted && leg in s.db.legs && l in s.db.legs && l != leg
    && s.db.legs[l].group == s.db.legs[leg].group && s.db.legs[l].status == Working
    && var g := s.db.legs[leg].group;
    && g in s.db.groups && s.db.groups[g].status == GroupWorking
    && s.db.groups[g].scope.user == s.db.legs[l].user && s.db.groups[g].scope.mode == s.db.legs[l].mode
    && !UnresolvedClose(s.db, s.db.groups[g].scope, g)
    && KeyClaimable(s, l)
  }

  lemma ArmedSiblingDoubles(s: State, leg: LegId, l: LegId)
    requires SiblingArmed(s, leg, l)
    ensures CanDouble(s)
  {
    hide UnresolvedClose, CanDouble;
    var u, worker := Newcomer(s);
    var e := ClaimEvent(u, l, worker, 0);
    var claimed := Apply(s, e);
    ClaimedKeepsGroups(s.db, l, worker);
    var claim := Claim(s.db, l, worker, 0).value;
    assert claimed.tasks[u] == Task(worker, s.db.legs[l].group, l, Firing(claim.retired, claim.quantity));
    var send := PlaceEvent(u, Sent("", true));
    var sent := Apply(claimed, send);
    assert leg in sent.accepted && l in sent.accepted && leg in sent.db.legs && l in sent.db.legs;
    DoubledNow(sent);
    DoubledLater(claimed, send, sent);
    DoubledLater(s, e, claimed);
  }

  lemma ClaimedKeepsGroups(db: Db, l: LegId, worker: WorkerId)
    requires l in db.legs && db.legs[l].status == Working && db.legs[l].group in db.groups
    requires db.groups[db.legs[l].group].status == GroupWorking && !UnresolvedClose(db, db.groups[db.legs[l].group].scope, db.legs[l].group)
    requires db.groups[db.legs[l].group].scope.user == db.legs[l].user && db.groups[db.legs[l].group].scope.mode == db.legs[l].mode
    ensures Claim(db, l, worker, 0).Some?
    ensures var after := Claim(db, l, worker, 0).value.db;
            after.legs.Keys == db.legs.Keys && forall k :: k in db.legs ==> after.legs[k].group == db.legs[k].group
  {
    hide UnresolvedClose;
  }

  // ---------------------------------------------------------------------------
  // An unwinding that should not have happened
  // ---------------------------------------------------------------------------

  /** What the unwinding of an accepted leg leaves: the siblings armed, the group working, other groups and orders as they were. */
  lemma UnwoundRows(db: Db, leg: LegId, retired: set<LegId>, worker: WorkerId, text: string, reason: string)
    requires HoldsClaim(db, leg, worker) && db.legs[leg].status == PendingFire
    requires retired != {} && forall l :: l in retired ==> Restorable(db, leg, l)
    ensures var settled := SettleNoSend(db, leg, retired, Failed, Message(text), worker, reason); var g := db.legs[leg].group;
            && settled.Some?
            && var after := settled.value;
            && after.legs.Keys == db.legs.Keys && after.groups.Keys == db.groups.Keys && after.trades == db.trades
            && (forall l :: l in db.legs ==> after.legs[l].(status := db.legs[l].status, triggeredAt := db.legs[l].triggeredAt,
                                                             note := db.legs[l].note) == db.legs[l])
            && (forall l :: l in retired ==> l in db.legs && l != leg && after.legs[l].status == Working)
            && (forall h :: h in db.groups && h != g ==> after.groups[h] == db.groups[h])
            && after.groups[g].status == GroupWorking && after.groups[g].scope == db.groups[g].scope
  {
    var mid := Released(db, leg, retired, Failed, Message(text));
    var l :| l in retired;
    assert Restorable(db, leg, l);
    assert mid.legs[l].status == Working && mid.legs[l].group == db.legs[leg].group;
  }

  /** In a bracket that was live, nothing else of the position stands in the way of a claim. */
  lemma NothingElseUnresolved(db: Db, after: Db, g: GroupId)
    requires DbOk(db) && g in db.groups && IsLive(db, g) && g in after.groups && after.groups[g].scope == db.groups[g].scope
    requires after.groups.Keys == db.groups.Keys && after.legs.Keys == db.legs.Keys && after.trades == db.trades
    requires forall l :: l in db.legs ==> after.legs[l].brokerOrder == db.legs[l].brokerOrder
    requires forall h :: h in db.groups && h != g ==> after.groups[h] == db.groups[h]
    ensures !UnresolvedClose(after, after.groups[g].scope, g)
  {
    hide LegOk, GroupOk;
    forall h | h in after.groups && h != g && after.groups[h].scope == after.groups[g].scope
      ensures !Reserves(after, after.groups[h])
    {
      assert CloseSettled(after, after.groups[h]) == CloseSettled(db, db.groups[h]);
      assert !IsLive(db, h);
    }
  }

  /** The state in which an attempt of the process on the lease was refused and its leg is accepted all the same. */
  ghost predicate UnwindsAccepted(s: State, t: TaskId, leg: LegId) {
    && t in s.tasks && s.tasks[t].phase.Refused? && s.tasks[t].leg == leg && leg in s.accepted
    && HoldsClaim(s.db, leg, s.tasks[t].worker) && DbOk(s.db)
    && s.tasks[t].phase.retired != {}
    && forall l :: l in s.tasks[t].phase.retired ==> Restorable(s.db, leg, l) && KeyClaimable(s, l)
  }

  lemma UnwoundSiblingDoubles(s: State, t: TaskId, leg: LegId)
    requires UnwindsAccepted(s, t, leg)
    ensures CanDouble(s)
  {
    hide DbOk, SettleNoSend, CanDouble, UnresolvedClose;
    var (task, g) := (s.tasks[t], s.db.legs[leg].group);
    ClaimedGroup(s.db, g);
    var reason := "Bracket fire was rejected before broker acceptance";
    UnwoundRows(s.db, leg, task.phase.retired, task.worker, "", reason);
    var after := SettleNoSend(s.db, leg, task.phase.retired, Failed, Message(""), task.worker, reason).value;
    NothingElseUnresolved(s.db, after, g);
    var e := SettleEvent(t, "");
    var settled := Apply(s, e);
    assert settled.db == after;
    var l :| l in task.phase.retired;
    LegInScope(s.db, l);
    assert Restorable(s.db, leg, l);
    assert SiblingArmed(settled, leg, l);
    ArmedSiblingDoubles(settled, leg, l);
    DoubledLater(s, e, settled);
  }

  lemma LegInScope(db: Db, l: LegId)
    requires DbOk(db) && l in db.legs
    ensures db.legs[l].group in db.groups
    ensures db.groups[db.legs[l].group].scope.user == db.legs[l].user && db.groups[db.legs[l].group].scope.mode == db.legs[l].mode
  {
    assert LegOk(db, l);
  }

  /** A cancelled sibling was never accepted, so its key is free. */
  lemma SiblingKeyIsFree(s: State, l: LegId)
    requires BrokerOk(s) && l in s.db.legs && s.db.legs[l].status in {Cancelled, Working}
    ensures l !in s.accepted && KeyClaimable(s, l)
  {
    assert l in s.accepted ==> AcceptedOk(s, l);
  }

  lemma MarkedAreRestorable(s: State, leg: LegId)
    requires DbOk(s.db) && BrokerOk(s)
    ensures forall l :: l in MarkedBy(s.db, leg) ==> leg in s.db.legs && Restorable(s.db, leg, l) && KeyClaimable(s, l)
  {
    hide DbOk, BrokerOk;
    forall l | l in MarkedBy(s.db, leg) ensures leg in s.db.legs && Restorable(s.db, leg, l) && KeyClaimable(s, l) {
      MarkStaysInGroup(s.db, l, leg);
      SiblingKeyIsFree(s, l);
    }
  }

  // ---------------------------------------------------------------------------
  // The steps that break a condition
  // ---------------------------------------------------------------------------

  /** Recovery takes a refusal for an answer although the order was accepted. */
  lemma HastyRefusalDoubles(s: State, t: TaskId, leg: LegId)
    requires DbOk(s.db) && BrokerOk(s) && t in s.tasks && s.tasks[t].leg == leg && leg in s.accepted
    requires HoldsClaim(s.db, leg, s.tasks[t].worker) && MarkedBy(s.db, leg) != {}
    ensures CanDouble(WithPhase(s, t, Refused(MarkedBy(s.db, leg))))
  {
    hide DbOk, BrokerOk, CanDouble, HoldsClaim, UnwindsAccepted;
    RefusedUnwinds(s, t, leg);
    UnwoundSiblingDoubles(WithPhase(s, t, Refused(MarkedBy(s.db, leg))), t, leg);
  }

  lemma RefusedUnwinds(s: State, t: TaskId, leg: LegId)
    requires DbOk(s.db) && BrokerOk(s) && t in s.tasks && s.tasks[t].leg == leg && leg in s.accepted
    requires HoldsClaim(s.db, leg, s.tasks[t].worker) && MarkedBy(s.db, leg) != {}
    ensures UnwindsAccepted(WithPhase(s, t, Refused(MarkedBy(s.db, leg))), t, leg)
  {
    hide DbOk, BrokerOk, HoldsClaim;
    MarkedAreRestorable(s, leg);
  }

  /** A place that nothing forbids sends the order. */
  lemma SentIsAccepted(s: State, u: TaskId, leg: LegId)
    requires u in s.tasks && s.tasks[u].leg == leg && CallsPlace(s.tasks[u].phase) && KeyClaimable(s, leg)
    ensures var e := PlaceEvent(u, Sent("", true));
            && Enabled(s, e) && Disciplined(s, e)
            && var after := Apply(s, e);
            && after.db == s.db && leg in after.accepted && after.tasks.Keys == s.tasks.Keys
            && (forall t :: t in s.tasks && t != u ==> after.tasks[t] == s.tasks[t])
            && (forall l :: l != leg && KeyClaimable(s, l) ==> KeyClaimable(after, l))
  {
  }

  /** A process claims a leg although a refused attempt of its own on it is still to be unwound. */
  lemma OwnReclaimDoubles(s: State, u: TaskId, leg: LegId, worker: WorkerId, now: Time, t: TaskId)
    requires Inv(s) && u !in s.tasks && Claim(s.db, leg, worker, now).Some?
    requires t in s.tasks && s.tasks[t].phase.Refused? && s.tasks[t].leg == leg && s.tasks[t].worker == worker
    requires s.tasks[t].phase.retired != {} && s.tasks[t].phase.retired <= Claim(s.db, leg, worker, now).value.retired
    ensures CanDouble(Apply(s, ClaimEvent(u, leg, worker, now)))
  {
    hide DbOk, BrokerOk, TaskOk, CanDouble, Claim, SettleNoSend;
    var claimed := Apply(s, ClaimEvent(u, leg, worker, now));
    ClaimedRows(s, leg, worker, now);
    SentIsAccepted(claimed, u, leg);
    var sent := Apply(claimed, PlaceEvent(u, Sent("", true)));
    UnwoundSiblingDoubles(sent, t, leg);
    DoubledLater(claimed, PlaceEvent(u, Sent("", true)), sent);
  }

  lemma ClaimedRows(s: State, leg: LegId, worker: WorkerId, now: Time)
    requires DbOk(s.db) && BrokerOk(s) && Claim(s.db, leg, worker, now).Some?
    ensures var claim := Claim(s.db, leg, worker, now).value;
            && DbOk(claim.db) && HoldsClaim(claim.db, leg, worker) && leg in s.db.legs && KeyClaimable(s, leg)
            && (forall l :: l in claim.retired ==> l != leg && Restorable(claim.db, leg, l) && KeyClaimable(s, l))
  {
    hide DbOk, BrokerOk, UnresolvedClose;
    ClaimKeepsDb(s.db, leg, worker, now);
    ClaimedLegs(s.db, leg, worker, now);
    SiblingKeyIsFree(s, leg);
    forall l | l in Claim(s.db, leg, worker, now).value.retired ensures KeyClaimable(s, l) { SiblingKeyIsFree(s, l); }
  }

  /** The rows after a take-over are the same but for the lease, and the new holder prepares to the same siblings. */
  lemma TakenRows(s: State, g: GroupId, worker: WorkerId, now: Time)
    requires DbOk(s.db) && TakeOver(s.db, g, worker, now).Some?
    ensures g in s.db.groups && s.db.groups[g].status == GroupPendingFire && s.db.groups[g].fireLeg.Some?
    ensures var (after, leg) := (TakeOver(s.db, g, worker, now).value, s.db.groups[g].fireLeg.value);
            && after.legs == s.db.legs && DbOk(after) && HoldsClaim(after, leg, worker) && after.legs[leg].group == g
            && MarkedBy(after, leg) == MarkedBy(s.db, leg)
            && Prepare(after, leg, g, now) == Some(Prepared(after, MarkedBy(s.db, leg)))
            && (forall l :: Restorable(s.db, leg, l) ==> Restorable(after, leg, l))
  {
    hide DbOk, Prepare;
    ClaimedGroup(s.db, g);
    TakeOverKeepsDb(s.db, g, worker, now);
    var (after, leg) := (TakeOver(s.db, g, worker, now).value, s.db.groups[g].fireLeg.value);
    assert MarkedBy(after, leg) == MarkedBy(s.db, leg);
    PrepareFindsClaim(after, leg, worker, now);
  }

  lemma PreparedTask(s: State, u: TaskId, leg: LegId, g: GroupId, now: Time, siblings: set<LegId>)
    requires u in s.tasks && s.tasks[u].phase.Leased? && s.tasks[u].leg == leg && s.tasks[u].group == g
    requires Prepare(s.db, leg, g, now) == Some(Prepared(s.db, siblings))
    ensures var e := PrepareEvent(u, now);
            Enabled(s, e) && Disciplined(s, e) &&
            Apply(s, e) == s.(tasks := s.tasks[u := s.tasks[u].(phase := Recovering(siblings, s.tasks[u].phase.quantity))])
  {
    hide Prepare;
  }

  lemma FireLegKey(s: State, g: GroupId)
    requires DbOk(s.db) && BrokerOk(s) && g in s.db.groups && s.db.groups[g].status == GroupPendingFire && s.db.groups[g].fireLeg.Some?
    requires s.db.groups[g].fireLeg.value !in s.accepted
    ensures KeyClaimable(s, s.db.groups[g].fireLeg.value)
  {
  }

  /** A process takes over a bracket although a refused attempt of its own on the fire leg is still to be unwound. */
  lemma OwnTakeOverDoubles(s: State, u: TaskId, g: GroupId, worker: WorkerId, now: Time, t: TaskId, leg: LegId)
    requires DbOk(s.db) && BrokerOk(s) && u !in s.tasks && TakeOver(s.db, g, worker, now).Some? && s.db.groups[g].fireLeg == Some(leg)
    requires CanStillUnwind(s, t, worker, leg, MarkedBy(s.db, leg))
    ensures CanDouble(Taken(s, u, g, worker, now))
  {
    hide DbOk, BrokerOk, CanDouble, TakeOver, Prepare, SettleNoSend;
    TakenRows(s, g, worker, now);
    MarkedAreRestorable(s, leg);
    forall l | l in s.tasks[t].phase.retired ensures l != leg { FireLegIsPending(s.db, g); }
    var taken := Taken(s, u, g, worker, now);
    if leg in s.accepted {
      UnwoundSiblingDoubles(taken, t, leg);
    } else {
      FireLegKey(s, g);
      PreparedTask(taken, u, leg, g, now, MarkedBy(s.db, leg));
      var ready := Apply(taken, PrepareEvent(u, now));
      SentIsAccepted(ready, u, leg);
      var sent := Apply(ready, PlaceEvent(u, Sent("", true)));
      UnwoundSiblingDoubles(sent, t, leg);
      DoubledLater(ready, PlaceEvent(u, Sent("", true)), sent);
      DoubledLater(taken, PrepareEvent(u, now), ready);
    }
  }

  lemma FireLegIsPending(db: Db, g: GroupId)
    requires DbOk(db) && g in db.groups && db.groups[g].status == GroupPendingFire && db.groups[g].fireLeg.Some?
    ensures db.groups[g].fireLeg.value in db.legs && db.legs[db.groups[g].fireLeg.value].status == PendingFire
  {
    hide DbOk;
    ClaimedGroup(db, g);
  }

  /** A process takes over a bracket whose claimant may still send. */
  lemma StalledClaimantDoubles(s: State, u: TaskId, g: GroupId, worker: WorkerId, now: Time, t: TaskId, leg: LegId)
    requires DbOk(s.db) && BrokerOk(s) && u !in s.tasks && TakeOver(s.db, g, worker, now).Some? && s.db.groups[g].fireLeg == Some(leg)
    requires t in s.tasks && s.tasks[t].group == g && s.tasks[t].leg == leg && MaySend(s.tasks[t].phase)
    requires leg !in s.accepted && MarkedBy(s.db, leg) != {}
    ensures CanDouble(Taken(s, u, g, worker, now))
  {
    hide DbOk, BrokerOk, CanDouble, TakeOver, Prepare;
    TakenRows(s, g, worker, now);
    FireLegKey(s, g);
    MarkedAreRestorable(s, leg);
    var siblings := MarkedBy(s.db, leg);
    forall l | l in siblings ensures l != leg { FireLegIsPending(s.db, g); }
    var taken := Taken(s, u, g, worker, now);
    if s.tasks[t].phase.Leased? {
      PreparedTask(taken, t, leg, g, now, siblings);
      var ready := Apply(taken, PrepareEvent(t, now));
      BothCanSend(ready, t, u, leg, g, worker, now, siblings);
      DoubledLater(taken, PrepareEvent(t, now), ready);
    } else {
      BothCanSend(taken, t, u, leg, g, worker, now, siblings);
    }
  }

  /** The new holder is rejected and has yet to unwind when the stalled order goes out. */
  lemma BothCanSend(s: State, t: TaskId, u: TaskId, leg: LegId, g: GroupId, worker: WorkerId, now: Time, siblings: set<LegId>)
    requires t in s.tasks && u in s.tasks && t != u && s.tasks[t].leg == leg && CallsPlace(s.tasks[t].phase)
    requires s.tasks[u].phase.Leased? && s.tasks[u].leg == leg && s.tasks[u].group == g && s.tasks[u].worker == worker
    requires DbOk(s.db) && HoldsClaim(s.db, leg, worker) && Prepare(s.db, leg, g, now) == Some(Prepared(s.db, siblings))
    requires siblings != {} && KeyClaimable(s, leg)
    requires forall l :: l in siblings ==> l != leg && Restorable(s.db, leg, l) && KeyClaimable(s, l)
    ensures CanDouble(s)
  {
    hide DbOk, CanDouble, Prepare;
    PreparedTask(s, u, leg, g, now, siblings);
    var ready := Apply(s, PrepareEvent(u, now));
    var reject := PlaceEvent(u, Rejected(true));
    var refused := Apply(ready, reject);
    SentIsAccepted(refused, t, leg);
    var sent := Apply(refused, PlaceEvent(t, Sent("", true)));
    UnwoundSiblingDoubles(sent, u, leg);
    DoubledLater(refused, PlaceEvent(t, Sent("", true)), sent);
    DoubledLater(ready, reject, refused);
    DoubledLater(s, PrepareEvent(u, now), ready);
  }

  lemma KnowsSiblings(s: State, t: TaskId)
    requires Inv(s) && t in s.tasks && s.tasks[t].phase.Recovering? && HoldsClaim(s.db, s.tasks[t].leg, s.tasks[t].worker)
    ensures s.tasks[t].phase.siblings == MarkedBy(s.db, s.tasks[t].leg)
  {
    hide DbOk, BrokerOk;
    assert TaskOk(s, t);
  }

  lemma TurnedAwayStep(s: State, t: TaskId)
    requires t in s.tasks && s.tasks[t].phase.Recovering?
    ensures Enabled(s, PlaceEvent(t, TurnedAway))
    ensures Apply(s, PlaceEvent(t, TurnedAway)) == WithPhase(s, t, Refused(s.tasks[t].phase.siblings))
  {
  }

  lemma AcceptedHasAudit(s: State, leg: LegId)
    requires BrokerOk(s) && leg in s.accepted
    ensures leg in s.audits
  {
    assert AcceptedOk(s, leg);
  }

  // ---------------------------------------------------------------------------
  // All of them
  // ---------------------------------------------------------------------------

  /** A refused attempt of the worker on the leg whose unwinding would still find these siblings. */
  predicate CanStillUnwind(s: State, t: TaskId, worker: WorkerId, leg: LegId, restorable: set<LegId>) {
    && t in s.tasks && s.tasks[t].phase.Refused? && s.tasks[t].leg == leg && s.tasks[t].worker == worker
    && s.tasks[t].phase.retired != {} && s.tasks[t].phase.retired <= restorable
  }

  /** The step concerns a bracket with a sibling to re-arm, and breaks its condition. */
  ghost predicate SiblingAtStake(s: State, e: Event) {
    match e
    case ClaimEvent(_, leg, worker, now) =>
      var claim := Claim(s.db, leg, worker, now);
      claim.Some? && exists t :: CanStillUnwind(s, t, worker, leg, claim.value.retired)
    case TakeOverEvent(_, g, worker, now) =>
      && TakeOver(s.db, g, worker, now).Some? && s.db.groups[g].fireLeg.Some?
      && var leg := s.db.groups[g].fireLeg.value;
      || (exists t :: CanStillUnwind(s, t, worker, leg, MarkedBy(s.db, leg)))
      || (leg !in s.accepted && MarkedBy(s.db, leg) != {} &&
          exists t :: t in s.tasks && s.tasks[t].group == g && MaySend(s.tasks[t].phase))
    case PlaceEvent(t, TurnedAway) =>
      && t in s.tasks && s.tasks[t].phase.Recovering? && s.tasks[t].leg in s.accepted
      && HoldsClaim(s.db, s.tasks[t].leg, s.tasks[t].worker) && MarkedBy(s.db, s.tasks[t].leg) != {}
    case _ => false
  }

  lemma TakenStep(s: State, u: TaskId, g: GroupId, worker: WorkerId, now: Time)
    requires u !in s.tasks && TakeOver(s.db, g, worker, now).Some? && s.db.groups[g].fireLeg.Some?
    ensures Enabled(s, TakeOverEvent(u, g, worker, now))
    ensures Apply(s, TakeOverEvent(u, g, worker, now)) == Taken(s, u, g, worker, now)
  {
  }

  lemma SenderIsOnFireLeg(s: State, g: GroupId, t: TaskId)
    requires Inv(s) && t in s.tasks && s.tasks[t].group == g && MaySend(s.tasks[t].phase)
    requires g in s.db.groups && s.db.groups[g].status == GroupPendingFire
    ensures s.db.groups[g].fireLeg == Some(s.tasks[t].leg)
  {
    hide DbOk, BrokerOk;
    assert TaskOk(s, t);
  }

  lemma BrokenTakeOverDoubles(s: State, u: TaskId, g: GroupId, worker: WorkerId, now: Time)
    requires Inv(s) && u !in s.tasks && SiblingAtStake(s, TakeOverEvent(u, g, worker, now))
    ensures !Quiet(s, worker, g) && CanDouble(Taken(s, u, g, worker, now))
  {
    hide DbOk, BrokerOk, TaskOk, CanDouble, TakeOver;
    TakenRows(s, g, worker, now);
    var leg := s.db.groups[g].fireLeg.value;
    if t :| CanStillUnwind(s, t, worker, leg, MarkedBy(s.db, leg)) {
      OwnTakeOverDoubles(s, u, g, worker, now, t, leg);
    } else {
      var t :| t in s.tasks && s.tasks[t].group == g && MaySend(s.tasks[t].phase);
      SenderIsOnFireLeg(s, g, t);
      StalledClaimantDoubles(s, u, g, worker, now, t, leg);
    }
  }

  /**
   Each condition is needed wherever a sibling is at stake: from every state of the invariant, whatever
   led there, a step that breaks one can be followed by disciplined steps alone up to two accepted closes
   of one bracket.
   */
  lemma BrokenConditionDoubles(s: State, e: Event)
    requires Inv(s) && Enabled(s, e) && SiblingAtStake(s, e)
    ensures !Disciplined(s, e) && CanDouble(Apply(s, e))
  {
    hide DbOk, BrokerOk, TaskOk, CanDouble, Claim, TakeOver, Quiet;
    match e {
      case ClaimEvent(u, leg, worker, now) =>
        var t :| CanStillUnwind(s, t, worker, leg, Claim(s.db, leg, worker, now).value.retired);
        OwnReclaimDoubles(s, u, leg, worker, now, t);
      case TakeOverEvent(u, g, worker, now) =>
        TakenStep(s, u, g, worker, now);
        BrokenTakeOverDoubles(s, u, g, worker, now);
      case PlaceEvent(t, outcome) =>
        AcceptedHasAudit(s, s.tasks[t].leg);
        KnowsSiblings(s, t);
        TurnedAwayStep(s, t);
        HastyRefusalDoubles(s, t, s.tasks[t].leg);
    }
  }
}
