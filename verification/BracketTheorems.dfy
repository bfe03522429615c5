/**
 What the bracket protocol guarantees over whole runs: one close per bracket, one live close per
 position, the protected size on the wire, and fencing of workers that lost their lease.
 */
module BracketTheorems {
  import opened Wrappers
  import opened BracketRules
  import opened BracketInvariant
  import opened BracketProtocol

  /** Any interleaving of steps the code can take. */
  ghost predicate CodeRun(states: seq<State>, events: seq<Event>) {
    && |states| == |events| + 1 && states[0] == INIT
    && forall i :: 0 <= i < |events| ==> Enabled(states[i], events[i]) && states[i + 1] == Apply(states[i], events[i])
  }

  /** A run in which expired claimants had stopped, no process met an older attempt of its own, and refusals during recovery were conclusive. */
  ghost predicate Run(states: seq<State>, events: seq<Event>) {
    && CodeRun(states, events)
    && forall i :: 0 <= i < |events| ==> Disciplined(states[i], events[i])
  }

  lemma {:induction false} RunKeepsInv(states: seq<State>, events: seq<Event>, i: nat)
    requires Run(states, events) && i < |states|
    ensures Inv(states[i])
  {
    hide Inv;
    if i == 0 {
      InitInv();
    } else {
      RunKeepsInv(states, events, i - 1);
      StepKeepsInv(states[i - 1], events[i - 1]);
    }
  }

  // ---------------------------------------------------------------------------
  // Acceptance is for ever
  // ---------------------------------------------------------------------------

  /** No transaction moves a leg to another group or deletes it. */
  ghost predicate LegsStay(before: Db, after: Db) {
    forall l :: l in before.legs ==> l in after.legs && after.legs[l].group == before.legs[l].group
  }

  lemma RetireKeepsLegs(db: Db, leg: LegId, status: LegStatus, reason: string)
    ensures LegsStay(db, Keep(db, RetireLeg(db, leg, status, reason)))
  {
  }

  lemma SettleKeepsLegs(db: Db, leg: LegId, retired: set<LegId>, status: LegStatus, note: Note, worker: WorkerId, reason: string)
    ensures LegsStay(db, Keep(db, SettleNoSend(db, leg, retired, status, note, worker, reason)))
  {
  }

  lemma FinishKeepsLegs(db: Db, leg: LegId, order: OrderId, worker: WorkerId)
    ensures LegsStay(db, Keep(db, Finish(db, leg, order, worker)))
  {
  }

  lemma ClaimKeepsLegs(db: Db, leg: LegId, worker: WorkerId, now: Time)
    requires Claim(db, leg, worker, now).Some?
    ensures LegsStay(db, Claim(db, leg, worker, now).value.db)
  {
  }

  lemma PrepareKeepsLegs(db: Db, leg: LegId, g: GroupId, now: Time)
    requires Prepare(db, leg, g, now).Some?
    ensures LegsStay(db, Prepare(db, leg, g, now).value.db)
  {
  }

  lemma ArmKeepsLegs(db: Db, req: ArmRequest, canonical: Option<GroupId>, existing: Option<LegId>, newId: LegId, now: Time)
    requires newId !in db.legs && Arm(db, req, canonical, existing, newId, now).Success?
    requires var ensured := EnsureGroup(db, req, canonical, now); ensured.Success? ==>
               IsLegOfKind(ensured.value.0, ensured.value.1, req.kind, existing)
    ensures LegsStay(db, Arm(db, req, canonical, existing, newId, now).value.0)
  {
  }

  lemma ResizeKeepsLegs(db: Db, user: UserId, leg: LegId, quantity: int)
    ensures LegsStay(db, KeepResult(db, Resize(db, user, leg, quantity)))
  {
  }

  lemma ShrinkKeepsLegs(db: Db, g: GroupId, scope: Scope, held: int)
    ensures LegsStay(db, Keep(db, Shrink(db, g, scope, held)))
  {
  }

  lemma CancelKeepsLegs(db: Db, user: UserId, leg: LegId)
    ensures LegsStay(db, KeepResult(db, CancelLeg(db, user, leg)))
  {
    hide RetireLeg;
    RetireKeepsLegs(db, leg, Cancelled, "All bracket legs cancelled");
  }

  lemma ExpireKeepsLegs(db: Db, leg: LegId, now: Time)
    ensures LegsStay(db, Keep(db, ExpireLeg(db, leg, now)))
  {
    hide RetireLeg;
    RetireKeepsLegs(db, leg, Expired, "All bracket legs expired");
  }

  lemma SameLegsStay(db: Db, trades: seq<Trade>)
    ensures LegsStay(db, db.(trades := trades)) && LegsStay(db, db)
  {
  }

  lemma GiveUpKeepsLegs(db: Db, g: GroupId, worker: WorkerId)
    ensures LegsStay(db, GiveUp(db, g, worker))
  {
  }

  lemma TakeOverKeepsLegs(db: Db, g: GroupId, worker: WorkerId, now: Time)
    ensures LegsStay(db, Keep(db, TakeOver(db, g, worker, now)))
  {
  }

  lemma ExtendKeepsLegs(db: Db, g: GroupId, until: Time, text: string)
    ensures LegsStay(db, Extend(db, g, until, text))
  {
  }

  lemma AnnotateKeepsLegs(db: Db, leg: LegId, text: string)
    ensures LegsStay(db, Annotate(db, leg, text))
  {
  }

  lemma StepKeepsLegs(s: State, e: Event)
    requires Enabled(s, e)
    ensures LegsStay(s.db, Apply(s, e).db)
  {
    hide Arm, EnsureGroup, IsCanonical, IsLegOfKind, Claim, Prepare, RetireLeg, CancelLeg, ExpireLeg, SettleNoSend, Finish, Place,
         PlaceEnabled, Resize, Shrink, TakeOver, GiveUp, Extend, Annotate, LegsStay;
    SameLegsStay(s.db, s.db.trades);
    match e {
      case ArmEvent(req, canonical, existing, newId, now) =>
        if Arm(s.db, req, canonical, existing, newId, now).Success? {
          ArmKeepsLegs(s.db, req, canonical, existing, newId, now);
        }
      case ResizeEvent(user, leg, quantity) => ResizeKeepsLegs(s.db, user, leg, quantity);
      case ShrinkEvent(g, scope, held) => ShrinkKeepsLegs(s.db, g, scope, held);
      case CancelEvent(user, leg) => CancelKeepsLegs(s.db, user, leg);
      case OrphanEvent(leg) => RetireKeepsLegs(s.db, leg, Cancelled, "All bracket legs orphaned from the broker position");
      case ExpireEvent(leg, now) => ExpireKeepsLegs(s.db, leg, now);
      case ExtendEvent(g, until, text) => ExtendKeepsLegs(s.db, g, until, text);
      case AnnotateEvent(leg, text) => AnnotateKeepsLegs(s.db, leg, text);
      case TradesEvent(trades) => SameLegsStay(s.db, trades);
      case _ => if ByWorker(e) { WorkerKeepsLegs(s, e); }
    }
  }

  lemma WorkerKeepsLegs(s: State, e: Event)
    requires Enabled(s, e) && ByWorker(e)
    ensures LegsStay(s.db, Apply(s, e).db)
  {
    hide Claim, Prepare, SettleNoSend, Finish, Place, PlaceEnabled, TakeOver, GiveUp, LegsStay, Arm, Resize, Shrink, RetireLeg, CancelLeg,
         ExpireLeg, Extend, Annotate, EnsureGroup, IsCanonical, IsLegOfKind;
    SameLegsStay(s.db, s.db.trades);
    match e {
      case UnclaimEvent(t, status) =>
        SettleKeepsLegs(s.db, s.tasks[t].leg, s.tasks[t].phase.retired, status, NoNote, s.tasks[t].worker,
                        "Bracket fire was unclaimed before broker placement");
      case SettleEvent(t, text) =>
        SettleKeepsLegs(s.db, s.tasks[t].leg, s.tasks[t].phase.retired, Failed, Message(text), s.tasks[t].worker,
                        "Bracket fire was rejected before broker acceptance");
      case FinishEvent(t) => FinishKeepsLegs(s.db, s.tasks[t].leg, s.tasks[t].phase.order, s.tasks[t].worker);
      case ClaimEvent(_, leg, worker, now) =>
        if Claim(s.db, leg, worker, now).Some? { ClaimKeepsLegs(s.db, leg, worker, now); }
      case PrepareEvent(t, now) =>
        if Prepare(s.db, s.tasks[t].leg, s.tasks[t].group, now).Some? {
          PrepareKeepsLegs(s.db, s.tasks[t].leg, s.tasks[t].group, now);
        } else {
          GiveUpKeepsLegs(s.db, s.tasks[t].group, s.tasks[t].worker);
        }
      case TakeOverEvent(_, g, worker, now) => TakeOverKeepsLegs(s.db, g, worker, now);
      case PlaceEvent(t, outcome) => PlaceKeepsRows(s, t, outcome);
    }
  }

  /** Under the invariant, place never accepts a second order for a key, whoever's key it works on. */
  lemma PlaceKeepsAccepted(s: State, t: TaskId, outcome: Outcome, k: LegId)
    requires Inv(s) && Enabled(s, PlaceEvent(t, outcome)) && k in s.accepted
    ensures k in Place(s, t, outcome).accepted && Place(s, t, outcome).accepted[k] == s.accepted[k]
  {
    hide DbOk;
    assert AcceptedOk(s, k);
  }

  lemma StepKeepsAccepted(s: State, e: Event, k: LegId)
    requires Inv(s) && Enabled(s, e) && k in s.accepted
    ensures k in Apply(s, e).accepted && Apply(s, e).accepted[k] == s.accepted[k]
  {
    hide Inv, Arm, Claim, Prepare, RetireLeg, SettleNoSend, Finish, Place;
    if e.PlaceEvent? { PlaceKeepsAccepted(s, e.t, e.outcome, k); }
  }

  lemma AcceptedLeg(s: State, k: LegId)
    requires Inv(s) && k in s.accepted
    ensures k in s.db.legs && s.db.legs[k].group in s.db.groups && s.db.legs[k].status in {PendingFire, Triggered}
    ensures s.db.groups[s.db.legs[k].group].fireLeg == Some(k)
    ensures s.accepted[k].quantity == s.db.groups[s.db.legs[k].group].protectedQuantity == s.db.legs[k].quantity
  {
    hide TaskOk;
    assert AcceptedOk(s, k) && LegOk(s.db, k);
  }

  /** An accepted key stays accepted as it was, and its leg is never working, failed, cancelled or expired again. */
  lemma {:induction false} AcceptedNeverRelabelled(states: seq<State>, events: seq<Event>, i: nat, j: nat, k: LegId)
    requires Run(states, events) && i <= j < |states| && k in states[i].accepted
    ensures k in states[j].accepted && states[j].accepted[k] == states[i].accepted[k]
    ensures k in states[i].db.legs && k in states[j].db.legs && states[j].db.legs[k].group == states[i].db.legs[k].group
    ensures states[j].db.legs[k].status in {PendingFire, Triggered}
    decreases j - i
  {
    hide Inv, Apply, Enabled, Disciplined;
    RunKeepsInv(states, events, i);
    AcceptedLeg(states[i], k);
    if i < j {
      AcceptedNeverRelabelled(states, events, i, j - 1, k);
      RunKeepsInv(states, events, j - 1);
      StepKeepsAccepted(states[j - 1], events[j - 1], k);
      StepKeepsLegs(states[j - 1], events[j - 1]);
      RunKeepsInv(states, events, j);
      AcceptedLeg(states[j], k);
    }
  }

  /** OCO exclusivity: whatever happens and whenever, a bracket has one leg whose close the broker ever accepts. */
  lemma OneAcceptedClosePerBracket(states: seq<State>, events: seq<Event>, i: nat, j: nat, k: LegId, m: LegId)
    requires Run(states, events) && i <= j < |states|
    requires k in states[i].accepted && m in states[j].accepted
    requires k in states[i].db.legs && m in states[j].db.legs && states[i].db.legs[k].group == states[j].db.legs[m].group
    ensures k == m
  {
    hide Inv, Apply, Enabled, Disciplined;
    AcceptedNeverRelabelled(states, events, i, j, k);
    RunKeepsInv(states, events, j);
    AcceptedLeg(states[j], k);
    AcceptedLeg(states[j], m);
  }

  /** The size the broker was asked for is the bracket's protected quantity, then and ever after. */
  lemma SentSizeIsProtectedSize(states: seq<State>, events: seq<Event>, i: nat, k: LegId)
    requires Run(states, events) && i < |states| && k in states[i].accepted
    ensures k in states[i].db.legs && states[i].db.legs[k].group in states[i].db.groups
    ensures states[i].accepted[k].quantity == states[i].db.groups[states[i].db.legs[k].group].protectedQuantity
    ensures states[i].accepted[k].quantity == states[i].db.legs[k].quantity
  {
    RunKeepsInv(states, events, i);
    AcceptedLeg(states[i], k);
  }

  /** Every leg that could still be sent, or restored, carries its group's protected quantity. */
  lemma SendableLegsAgreeOnSize(states: seq<State>, events: seq<Event>, i: nat, l: LegId)
    requires Run(states, events) && i < |states| && l in states[i].db.legs
    requires IsActive(states[i].db.legs[l].status) || states[i].db.legs[l].note.RetiredBy?
    ensures states[i].db.legs[l].group in states[i].db.groups
    ensures states[i].db.legs[l].quantity == states[i].db.groups[states[i].db.legs[l].group].protectedQuantity
  {
    RunKeepsInv(states, events, i);
    assert LegOk(states[i].db, l);
  }

  // ---------------------------------------------------------------------------
  // One live close path per position
  // ---------------------------------------------------------------------------

  lemma OneLiveClosePerPosition(states: seq<State>, events: seq<Event>, i: nat, g: GroupId, h: GroupId)
    requires Run(states, events) && i < |states|
    requires g in states[i].db.groups && h in states[i].db.groups
    requires states[i].db.groups[g].scope == states[i].db.groups[h].scope
    requires IsLive(states[i].db, g) && IsLive(states[i].db, h)
    ensures g == h
  {
    RunKeepsInv(states, events, i);
  }

  // ---------------------------------------------------------------------------
  // Recovery
  // ---------------------------------------------------------------------------

  /** Recovery never meets a fire leg it cannot recover, and no group ever ends up failed. */
  lemma RecoveryNeverGivesUp(states: seq<State>, events: seq<Event>, i: nat, now: Time)
    requires Run(states, events) && i < |states|
    ensures forall g :: g in states[i].db.groups ==> states[i].db.groups[g].status != GroupFailed
    ensures forall t :: t in states[i].tasks && states[i].tasks[t].phase.Leased? ==>
              Prepare(states[i].db, states[i].tasks[t].leg, states[i].tasks[t].group, now).Some?
  {
    hide BrokerOk, TaskOk, Prepare, GroupOk, LegOk, OneLivePerScope;
    var s := states[i];
    RunKeepsInv(states, events, i);
    forall g | g in s.db.groups ensures s.db.groups[g].status != GroupFailed { NoGroupFailed(s.db, g); }
    forall t | t in s.tasks && s.tasks[t].phase.Leased?
      ensures Prepare(s.db, s.tasks[t].leg, s.tasks[t].group, now).Some?
    {
      var siblings := PrepareFindsRows(s, t, now);
    }
  }

  lemma NoGroupFailed(db: Db, g: GroupId)
    requires DbOk(db) && g in db.groups
    ensures db.groups[g].status != GroupFailed
  {
    assert GroupOk(db, g);
  }

  /** Rows written by a claim that stopped halfway are repaired: afterwards only the fire leg is active. */
  lemma PrepareRepairsHalfClaim(db: Db, leg: LegId, g: GroupId, now: Time)
    requires Prepare(db, leg, g, now).Some?
    requires forall l :: InGroup(db, g, l) ==> db.legs[l].user == db.legs[leg].user && db.legs[l].mode == db.legs[leg].mode
    requires forall l :: InGroup(db, g, l) && l != leg ==> db.legs[l].status !in {PendingFire, Triggered}
    ensures var prepared := Prepare(db, leg, g, now).value;
            && prepared.db.legs[leg].status in {PendingFire, Triggered}
            && (forall l :: InGroup(prepared.db, g, l) && l != leg ==> !IsActive(prepared.db.legs[l].status))
            && (forall l :: l in prepared.siblings <==> InGroup(prepared.db, g, l) && l != leg && Restorable(prepared.db, leg, l))
            && Prepare(prepared.db, leg, g, now) == Some(prepared)
  {
    var prepared := Prepare(db, leg, g, now).value;
    var after := prepared.db;
    assert after.legs.Keys == db.legs.Keys;
    assert WorkingSiblings(after, leg) == {};
    var again := Prepare(after, leg, g, now).value;
    assert again.db.legs == after.legs;
    assert again.siblings == prepared.siblings;
  }

  /** What a claim leaves of the group's legs: the fire leg pending, its siblings marked and restorable. */
  lemma ClaimedLegs(db: Db, leg: LegId, worker: WorkerId, now: Time)
    requires DbOk(db) && Claim(db, leg, worker, now).Some?
    ensures var claim := Claim(db, leg, worker, now).value;
            && claim.db.legs.Keys == db.legs.Keys && leg !in claim.retired
            && claim.db.legs[leg] == db.legs[leg].(status := PendingFire, triggeredAt := Some(now))
            && (forall l :: l in claim.retired ==>
                  l in db.legs && db.legs[l].group == db.legs[leg].group && db.legs[l].status == Working &&
                  db.legs[l].triggeredAt.None? && db.legs[l].note.NoNote? && Restorable(claim.db, leg, l) &&
                  claim.db.legs[l] == db.legs[l].(status := Cancelled, note := RetiredBy(leg)))
            && (forall l :: l in db.legs && l != leg && l !in claim.retired ==> claim.db.legs[l] == db.legs[l])
            && db.legs[leg].note.NoNote? && db.legs[leg].triggeredAt.None?
  {
    hide OneLivePerScope, GroupOk;
    var claim := Claim(db, leg, worker, now).value;
    assert LegOk(db, leg);
    forall l | l in claim.retired
      ensures db.legs[l].triggeredAt.None? && db.legs[l].note.NoNote? && Restorable(claim.db, leg, l)
    {
      assert LegOk(db, l);
    }
  }

  /** Releasing a fresh claim restores every leg but the fire leg to what it was. */
  lemma ReleasedClaim(db: Db, claimed: Db, leg: LegId, retired: set<LegId>, status: LegStatus, note: Note)
    requires leg in db.legs && claimed.legs.Keys == db.legs.Keys && leg !in retired
    requires claimed.legs[leg].group in claimed.groups
    requires forall l :: l in retired ==>
               l in db.legs && db.legs[l].status == Working && db.legs[l].triggeredAt.None? && db.legs[l].note.NoNote? &&
               claimed.legs[l] == db.legs[l].(status := Cancelled, note := RetiredBy(leg))
    requires forall l :: l in db.legs && l != leg && l !in retired ==> claimed.legs[l] == db.legs[l]
    ensures Released(claimed, leg, retired, status, note).legs == db.legs[leg := SettledLeg(claimed.legs[leg], status, note)]
  {
  }

  /** Un-claiming before anything was sent gives every leg back exactly, and the group back but for its note. */
  lemma ClaimThenUnclaimIsIdentity(db: Db, leg: LegId, worker: WorkerId, now: Time, reason: string)
    requires DbOk(db) && Claim(db, leg, worker, now).Some?
    ensures var claim := Claim(db, leg, worker, now).value;
            var g := db.legs[leg].group;
            SettleNoSend(claim.db, leg, claim.retired, Working, NoNote, worker, reason) ==
            Some(db.(groups := db.groups[g := db.groups[g].(note := None)]))
  {
    var claim := Claim(db, leg, worker, now).value;
    var g := db.legs[leg].group;
    UnleasedWhenWorking(db, g);
    hide DbOk;
    ClaimedLegs(db, leg, worker, now);
    ReleasedClaim(db, claim.db, leg, claim.retired, Working, NoNote);
    var mid := Released(claim.db, leg, claim.retired, Working, NoNote);
    assert mid.legs == db.legs;
    assert mid.groups == db.groups[g := db.groups[g].(note := None)];
    assert HasActiveLeg(mid, g) by { assert mid.legs[leg].status == Working; }
  }

  lemma UnleasedWhenWorking(db: Db, g: GroupId)
    requires DbOk(db) && g in db.groups && db.groups[g].status == GroupWorking
    ensures db.groups[g].fireLeg.None? && Unleased(db.groups[g])
  {
    assert GroupOk(db, g);
  }

  // ---------------------------------------------------------------------------
  // Finality
  // ---------------------------------------------------------------------------

  ghost predicate GroupStays(before: Db, after: Db, g: GroupId) {
    g in before.groups && g in after.groups && after.groups[g] == before.groups[g]
  }

  lemma RetireSparesFired(db: Db, leg: LegId, status: LegStatus, reason: string, g: GroupId)
    requires g in db.groups && db.groups[g].status == GroupFired
    ensures var after := Keep(db, RetireLeg(db, leg, status, reason)); GroupStays(db, after, g)
  {
  }

  lemma SettleSparesFired(db: Db, leg: LegId, retired: set<LegId>, status: LegStatus, note: Note, worker: WorkerId, reason: string, g: GroupId)
    requires g in db.groups && db.groups[g].status == GroupFired
    ensures var after := Keep(db, SettleNoSend(db, leg, retired, status, note, worker, reason));
            GroupStays(db, after, g)
  {
  }

  lemma FinishSparesFired(db: Db, leg: LegId, order: OrderId, worker: WorkerId, g: GroupId)
    requires g in db.groups && db.groups[g].status == GroupFired
    ensures var after := Keep(db, Finish(db, leg, order, worker)); GroupStays(db, after, g)
  {
  }

  lemma CancelSparesFired(db: Db, user: UserId, leg: LegId, g: GroupId)
    requires g in db.groups && db.groups[g].status == GroupFired
    ensures var after := KeepResult(db, CancelLeg(db, user, leg)); GroupStays(db, after, g)
  {
    hide RetireLeg;
    RetireSparesFired(db, leg, Cancelled, "All bracket legs cancelled", g);
  }

  lemma ExpireSparesFired(db: Db, leg: LegId, now: Time, g: GroupId)
    requires g in db.groups && db.groups[g].status == GroupFired
    ensures var after := Keep(db, ExpireLeg(db, leg, now)); GroupStays(db, after, g)
  {
    hide RetireLeg;
    RetireSparesFired(db, leg, Expired, "All bracket legs expired", g);
  }

  lemma SizesSpareFired(db: Db, g: GroupId, user: UserId, leg: LegId, quantity: int)
    requires g in db.groups && db.groups[g].status == GroupFired
    ensures var after := KeepResult(db, Resize(db, user, leg, quantity)); GroupStays(db, after, g)
  {
  }

  lemma ShrinkSparesFired(db: Db, g: GroupId, h: GroupId, scope: Scope, held: int)
    requires g in db.groups && db.groups[g].status == GroupFired
    ensures var after := Keep(db, Shrink(db, h, scope, held)); GroupStays(db, after, g)
  {
  }

  lemma ClaimSparesFired(db: Db, g: GroupId, leg: LegId, worker: WorkerId, now: Time)
    requires g in db.groups && db.groups[g].status == GroupFired
    ensures Claim(db, leg, worker, now).Some? ==>
              var after := Claim(db, leg, worker, now).value.db; GroupStays(db, after, g)
  {
    hide UnresolvedClose;
  }

  lemma LeasesSpareFired(db: Db, g: GroupId, h: GroupId, worker: WorkerId, time: Time, text: string)
    requires g in db.groups && db.groups[g].status == GroupFired
    ensures TakeOver(db, h, worker, time).Some? ==>
              var after := TakeOver(db, h, worker, time).value; GroupStays(db, after, g)
    ensures var after := Extend(db, h, time, text); GroupStays(db, after, g)
  {
  }

  lemma NotesSpareFired(db: Db, leg: LegId, text: string, g: GroupId)
    requires g in db.groups
    ensures var after := Annotate(db, leg, text); GroupStays(db, after, g)
  {
  }

  lemma SameGroupsStay(db: Db, trades: seq<Trade>, g: GroupId)
    requires g in db.groups
    ensures GroupStays(db, db.(trades := trades), g) && GroupStays(db, db, g)
  {
  }

  /** A step of a worker between two awaits, as against one of a client, a sweep or the broker's reports. */
  predicate ByWorker(e: Event) {
    e.ClaimEvent? || e.UnclaimEvent? || e.PlaceEvent? || e.SettleEvent? || e.FinishEvent? || e.TakeOverEvent? || e.PrepareEvent?
  }

  lemma WorkerKeepsFired(s: State, e: Event, g: GroupId)
    requires Inv(s) && Enabled(s, e) && ByWorker(e) && g in s.db.groups && s.db.groups[g].status == GroupFired
    ensures GroupStays(s.db, Apply(s, e).db, g)
  {
    hide Inv, Place, SettleNoSend, Finish, Claim, TakeOver, Prepare, GroupStays;
    SameGroupsStay(s.db, s.db.trades, g);
    match e {
      case PrepareEvent(t, now) => PrepareKeepsRows(s, t, now);
      case PlaceEvent(t, outcome) => PlaceKeepsRows(s, t, outcome);
      case ClaimEvent(_, leg, worker, now) => ClaimSparesFired(s.db, g, leg, worker, now);
      case TakeOverEvent(_, h, worker, now) => LeasesSpareFired(s.db, g, h, worker, now, "");
      case UnclaimEvent(t, status) =>
        SettleSparesFired(s.db, s.tasks[t].leg, s.tasks[t].phase.retired, status, NoNote, s.tasks[t].worker,
                          "Bracket fire was unclaimed before broker placement", g);
      case SettleEvent(t, text) =>
        SettleSparesFired(s.db, s.tasks[t].leg, s.tasks[t].phase.retired, Failed, Message(text), s.tasks[t].worker,
                          "Bracket fire was rejected before broker acceptance", g);
      case FinishEvent(t) => FinishSparesFired(s.db, s.tasks[t].leg, s.tasks[t].phase.order, s.tasks[t].worker, g);
    }
  }

  lemma StepKeepsFired(s: State, e: Event, g: GroupId)
    requires Inv(s) && Enabled(s, e) && g in s.db.groups && s.db.groups[g].status == GroupFired
    ensures GroupStays(s.db, Apply(s, e).db, g)
  {
    hide Inv, Arm, RetireLeg, CancelLeg, ExpireLeg, Resize, Shrink, Extend, Annotate, GroupStays, EnsureGroup, IsCanonical, IsLegOfKind;
    SameGroupsStay(s.db, s.db.trades, g);
    if ByWorker(e) {
      WorkerKeepsFired(s, e, g);
    } else {
      match e {
        case ArmEvent(req, canonical, existing, newId, now) =>
          if Arm(s.db, req, canonical, existing, newId, now).Success? {
            ArmSparesFired(s.db, req, canonical, existing, newId, now, g);
          }
        case ResizeEvent(user, leg, quantity) => SizesSpareFired(s.db, g, user, leg, quantity);
        case ShrinkEvent(h, scope, held) => ShrinkSparesFired(s.db, g, h, scope, held);
        case CancelEvent(user, leg) => CancelSparesFired(s.db, user, leg, g);
        case OrphanEvent(leg) => RetireSparesFired(s.db, leg, Cancelled, "All bracket legs orphaned from the broker position", g);
        case ExpireEvent(leg, now) => ExpireSparesFired(s.db, leg, now, g);
        case ExtendEvent(h, until, text) => LeasesSpareFired(s.db, g, h, 0, until, text);
        case AnnotateEvent(leg, text) => NotesSpareFired(s.db, leg, text, g);
        case TradesEvent(trades) => SameGroupsStay(s.db, trades, g);
        case _ =>
      }
    }
  }

  lemma PrepareKeepsRows(s: State, t: TaskId, now: Time)
    requires Inv(s) && Enabled(s, PrepareEvent(t, now))
    ensures Apply(s, PrepareEvent(t, now)).db == s.db
  {
    hide DbOk, BrokerOk, Prepare;
    var siblings := PrepareFindsRows(s, t, now);
  }

  lemma PlaceKeepsRows(s: State, t: TaskId, outcome: Outcome)
    requires t in s.tasks && CallsPlace(s.tasks[t].phase) && PlaceEnabled(s, s.tasks[t].leg, outcome)
    ensures Place(s, t, outcome).db == s.db
  {
  }

  lemma ArmSparesFired(db: Db, req: ArmRequest, canonical: Option<GroupId>, existing: Option<LegId>, newId: LegId, now: Time, g: GroupId)
    requires g in db.groups && db.groups[g].status == GroupFired
    requires Arm(db, req, canonical, existing, newId, now).Success?
    ensures var after := Arm(db, req, canonical, existing, newId, now).value.0;
            GroupStays(db, after, g)
  {
  }

  /** A fired bracket stays fired, by the same leg. */
  lemma {:induction false} FiredIsFinal(states: seq<State>, events: seq<Event>, i: nat, j: nat, g: GroupId)
    requires Run(states, events) && i <= j < |states|
    requires g in states[i].db.groups && states[i].db.groups[g].status == GroupFired
    ensures g in states[j].db.groups && states[j].db.groups[g] == states[i].db.groups[g]
    decreases j - i
  {
    hide Inv, Apply, Enabled, Disciplined;
    if i < j {
      FiredIsFinal(states, events, i, j - 1, g);
      RunKeepsInv(states, events, j - 1);
      StepKeepsFired(states[j - 1], events[j - 1], g);
    }
  }

  ghost predicate Finishes(s: State, e: Event, g: GroupId) {
    && e.FinishEvent? && Enabled(s, e) && s.tasks[e.t].group == g
    && Finish(s.db, s.tasks[e.t].leg, s.tasks[e.t].phase.order, s.tasks[e.t].worker).Some?
  }

  lemma FinisherHoldsGroup(s: State, e: Event, g: GroupId)
    requires Inv(s) && Finishes(s, e, g)
    ensures g in s.db.groups && s.db.groups[g].status == GroupPendingFire
    ensures g in Apply(s, e).db.groups && Apply(s, e).db.groups[g].status == GroupFired
  {
    hide DbOk, BrokerOk, Finish;
    assert TaskOk(s, e.t);
    FinishEndsClaim(s.db, s.tasks[e.t].leg, s.tasks[e.t].phase.order, s.tasks[e.t].worker);
  }

  /** Across all workers, a bracket is finalized at most once. */
  lemma FinishSucceedsOnce(states: seq<State>, events: seq<Event>, i: nat, j: nat, g: GroupId)
    requires Run(states, events) && i < j < |events|
    requires Finishes(states[i], events[i], g)
    ensures !Finishes(states[j], events[j], g)
  {
    hide Inv, Apply, Enabled, Disciplined, Finishes;
    RunKeepsInv(states, events, i);
    FinisherHoldsGroup(states[i], events[i], g);
    FiredIsFinal(states, events, i + 1, j, g);
    if Finishes(states[j], events[j], g) {
      RunKeepsInv(states, events, j);
      FinisherHoldsGroup(states[j], events[j], g);
    }
  }
}
