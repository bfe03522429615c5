/**
 What the transactions around a claim, its lease and the reservation of a position come to, said of the
 rows themselves: times as numbers, trades as the statuses they show.
 */
module BracketOutcomes {
  import opened Wrappers
  import opened BracketRules
  import opened BracketInvariant
  import opened BracketProtocol
  import opened BracketTheorems
  import opened BracketRuns
  import opened BracketReservation

  // ---------------------------------------------------------------------------
  // Leases
  // ---------------------------------------------------------------------------

  /** A take-over needs a pending bracket whose lease ended strictly before; it gives thirty seconds and changes nothing else. */
  lemma TakeOverMeans(db: Db, g: GroupId, worker: WorkerId, now: Time)
    ensures TakeOver(db, g, worker, now).Some? <==>
            g in db.groups && db.groups[g].status.GroupPendingFire? && exists end :: db.groups[g].leaseExpires == Some(end) && end < now
    ensures TakeOver(db, g, worker, now).Some? ==>
              var after := TakeOver(db, g, worker, now).value; var (a, b) := (db.groups[g], after.groups[g]);
              && after.legs == db.legs && after.trades == db.trades && after.groups.Keys == db.groups.Keys
              && (forall h :: h in db.groups && h != g ==> after.groups[h] == db.groups[h])
              && b.leaseOwner == Some(worker) && b.leaseExpires == Some(now + 30_000)
              && b.scope == a.scope && b.status == a.status && b.protectedQuantity == a.protectedQuantity && b.fireLeg == a.fireLeg
              && b.createdAt == a.createdAt && b.note == a.note
  {
    if TakeOver(db, g, worker, now).Some? { assert db.groups[g].leaseExpires == Some(db.groups[g].leaseExpires.value); }
  }

  /** Nothing happens at a take-over while the lease stands, up to and including its last millisecond. */
  lemma StandingLeaseRefusesTakeOver(s: State, t: TaskId, g: GroupId, worker: WorkerId, now: Time)
    requires Enabled(s, TakeOverEvent(t, g, worker, now))
    ensures Apply(s, TakeOverEvent(t, g, worker, now)) != s ==>
              g in s.db.groups && s.db.groups[g].status.GroupPendingFire? &&
              s.db.groups[g].leaseExpires.Some? && s.db.groups[g].leaseExpires.value < now
    ensures g in s.db.groups && s.db.groups[g].leaseExpires.Some? && now <= s.db.groups[g].leaseExpires.value ==>
              Apply(s, TakeOverEvent(t, g, worker, now)) == s
  {
  }

  /** The group is held by this worker until that time. */
  ghost predicate Leased(db: Db, g: GroupId, worker: WorkerId, until: Time) {
    g in db.groups && db.groups[g].leaseOwner == Some(worker) && db.groups[g].leaseExpires == Some(until)
  }

  /** A claim and a take-over give the lease for thirty seconds. */
  lemma LeaseIsThirtySeconds(db: Db, leg: LegId, g: GroupId, worker: WorkerId, now: Time)
    ensures Claim(db, leg, worker, now).Some? ==> Leased(Claim(db, leg, worker, now).value.db, db.legs[leg].group, worker, now + 30_000)
    ensures TakeOver(db, g, worker, now).Some? ==> Leased(TakeOver(db, g, worker, now).value, g, worker, now + 30_000)
  {
    hide UnresolvedClose;
  }

  /** While a bracket stays pending, only a take-over after its lease ran out, or an extension, touches the lease. */
  lemma StepKeepsLease(s: State, e: Event, g: GroupId)
    requires Inv(s) && Enabled(s, e) && Pending(s.db, g) && g in Apply(s, e).db.groups && Apply(s, e).db.groups[g].status == GroupPendingFire
    ensures var (a, b) := (s.db.groups[g], Apply(s, e).db.groups[g]);
            || (b.leaseOwner == a.leaseOwner && b.leaseExpires == a.leaseExpires)
            || (e.ExtendEvent? && e.g == g && b.leaseOwner == a.leaseOwner && b.leaseExpires == Some(e.until))
            || (e.TakeOverEvent? && e.g == g && a.leaseExpires.Some? && a.leaseExpires.value < e.now
                && b.leaseOwner == Some(e.worker) && b.leaseExpires == Some(e.now + 30_000))
  {
    hide DbOk, BrokerOk, TaskOk;
    if e.ExtendEvent? || e.TakeOverEvent? {
      LeasingSteps(s, e, g);
    } else {
      OtherStepsKeepLease(s, e, g);
    }
  }

  lemma LeasingSteps(s: State, e: Event, g: GroupId)
    requires Enabled(s, e) && (e.ExtendEvent? || e.TakeOverEvent?) && Pending(s.db, g)
    ensures g in Apply(s, e).db.groups
    ensures var (a, b) := (s.db.groups[g], Apply(s, e).db.groups[g]);
            || (b.leaseOwner == a.leaseOwner && b.leaseExpires == a.leaseExpires)
            || (e.ExtendEvent? && e.g == g && b.leaseOwner == a.leaseOwner && b.leaseExpires == Some(e.until))
            || (e.TakeOverEvent? && e.g == g && a.leaseExpires.Some? && a.leaseExpires.value < e.now
                && b.leaseOwner == Some(e.worker) && b.leaseExpires == Some(e.now + 30_000))
  {
  }

  ghost predicate LeaseKept(before: Db, after: Db, g: GroupId) {
    g in before.groups && g in after.groups && after.groups[g].status == GroupPendingFire ==>
      before.groups[g].status == GroupPendingFire ==>
      after.groups[g].leaseOwner == before.groups[g].leaseOwner && after.groups[g].leaseExpires == before.groups[g].leaseExpires
  }

  lemma RetireKeepsLease(db: Db, leg: LegId, status: LegStatus, reason: string, g: GroupId)
    ensures LeaseKept(db, Keep(db, RetireLeg(db, leg, status, reason)), g)
  {
    hide HasActiveLeg;
  }

  lemma SizesKeepLease(db: Db, user: UserId, leg: LegId, quantity: int, h: GroupId, scope: Scope, held: int, g: GroupId)
    ensures LeaseKept(db, KeepResult(db, Resize(db, user, leg, quantity)), g) && LeaseKept(db, Keep(db, Shrink(db, h, scope, held)), g)
  {
  }

  lemma ArmKeepsLease(db: Db, req: ArmRequest, canonical: Option<GroupId>, existing: Option<LegId>, newId: LegId, now: Time, g: GroupId)
    requires Arm(db, req, canonical, existing, newId, now).Success?
    ensures LeaseKept(db, Arm(db, req, canonical, existing, newId, now).value.0, g)
  {
    hide UnresolvedClose, HasActiveLeg;
  }

  lemma EndingKeepsLease(db: Db, leg: LegId, retired: set<LegId>, status: LegStatus, note: Note, worker: WorkerId, reason: string,
                         order: OrderId, g: GroupId)
    ensures LeaseKept(db, Keep(db, SettleNoSend(db, leg, retired, status, note, worker, reason)), g)
    ensures LeaseKept(db, Keep(db, Finish(db, leg, order, worker)), g)
  {
    hide HasActiveLeg, Restorable;
  }

  lemma ClaimKeepsLease(db: Db, leg: LegId, worker: WorkerId, now: Time, g: GroupId)
    requires Claim(db, leg, worker, now).Some?
    ensures LeaseKept(db, Claim(db, leg, worker, now).value.db, g)
  {
    hide UnresolvedClose;
  }

  lemma NotesKeepLease(db: Db, leg: LegId, text: string, trades: seq<Trade>, g: GroupId)
    ensures LeaseKept(db, Annotate(db, leg, text), g) && LeaseKept(db, db.(trades := trades), g) && LeaseKept(db, db, g)
  {
  }

  lemma OtherStepsKeepLease(s: State, e: Event, g: GroupId)
    requires Inv(s) && Enabled(s, e) && !e.ExtendEvent? && !e.TakeOverEvent?
    ensures LeaseKept(s.db, Apply(s, e).db, g)
  {
    hide DbOk, BrokerOk, TaskOk, LeaseKept, Arm, EnsureGroup, IsLegOfKind, IsCanonical, Claim, Prepare, RetireLeg, CancelLeg, ExpireLeg,
         SettleNoSend, Finish, Place, PlaceEnabled, GiveUp, Resize, Shrink, TakeOver, Extend, Annotate;
    NotesKeepLease(s.db, 0, "", s.db.trades, g);
    match e {
      case ArmEvent(req, canonical, existing, newId, now) =>
        if Arm(s.db, req, canonical, existing, newId, now).Success? { ArmKeepsLease(s.db, req, canonical, existing, newId, now, g); }
      case ResizeEvent(user, leg, quantity) => SizesKeepLease(s.db, user, leg, quantity, 0, ANY_SCOPE, 0, g);
      case ShrinkEvent(h, scope, held) => SizesKeepLease(s.db, "", 0, 0, h, scope, held, g);
      case CancelEvent(user, leg) => CancelKeepsLease(s.db, user, leg, 0, g);
      case OrphanEvent(leg) => RetireKeepsLease(s.db, leg, Cancelled, "All bracket legs orphaned from the broker position", g);
      case ExpireEvent(leg, now) => CancelKeepsLease(s.db, "", leg, now, g);
      case AnnotateEvent(leg, text) => NotesKeepLease(s.db, leg, text, s.db.trades, g);
      case TradesEvent(trades) => NotesKeepLease(s.db, 0, "", trades, g);
      case _ => if ByWorker(e) { WorkerKeepsLease(s, e, g); }
    }
  }

  lemma CancelKeepsLease(db: Db, user: UserId, leg: LegId, now: Time, g: GroupId)
    ensures LeaseKept(db, KeepResult(db, CancelLeg(db, user, leg)), g) && LeaseKept(db, Keep(db, ExpireLeg(db, leg, now)), g)
  {
    hide RetireLeg, LeaseKept;
    NotesKeepLease(db, leg, "", db.trades, g);
    RetireKeepsLease(db, leg, Cancelled, "All bracket legs cancelled", g);
    RetireKeepsLease(db, leg, Expired, "All bracket legs expired", g);
  }

  lemma WorkerKeepsLease(s: State, e: Event, g: GroupId)
    requires Inv(s) && Enabled(s, e) && ByWorker(e) && !e.TakeOverEvent?
    ensures LeaseKept(s.db, Apply(s, e).db, g)
  {
    hide DbOk, BrokerOk, TaskOk, LeaseKept, Claim, Prepare, SettleNoSend, Finish, Place, PlaceEnabled, TakeOver, GiveUp, Arm, Resize, Shrink,
         RetireLeg, CancelLeg, ExpireLeg, Extend, Annotate, EnsureGroup, IsCanonical, IsLegOfKind;
    NotesKeepLease(s.db, 0, "", s.db.trades, g);
    match e {
      case ClaimEvent(_, leg, worker, now) => if Claim(s.db, leg, worker, now).Some? { ClaimKeepsLease(s.db, leg, worker, now, g); }
      case UnclaimEvent(t, status) =>
        EndingKeepsLease(s.db, s.tasks[t].leg, s.tasks[t].phase.retired, status, NoNote, s.tasks[t].worker,
                         "Bracket fire was unclaimed before broker placement", "", g);
      case SettleEvent(t, text) =>
        EndingKeepsLease(s.db, s.tasks[t].leg, s.tasks[t].phase.retired, Failed, Message(text), s.tasks[t].worker,
                         "Bracket fire was rejected before broker acceptance", "", g);
      case FinishEvent(t) => EndingKeepsLease(s.db, s.tasks[t].leg, {}, Failed, NoNote, s.tasks[t].worker, "", s.tasks[t].phase.order, g);
      case PlaceEvent(t, outcome) => PlaceKeepsRows(s, t, outcome);
      case PrepareEvent(t, now) => PrepareKeepsRows(s, t, now);
    }
  }

  /** In this stretch of the run nobody extends the group's lease, and whoever tries to take it over is not late enough. */
  ghost predicate NotPastLease(events: seq<Event>, i: nat, j: nat, g: GroupId, until: Time)
    requires j <= |events|
  {
    forall k :: i <= k < j ==>
      && !(events[k].ExtendEvent? && events[k].g == g)
      && (events[k].TakeOverEvent? && events[k].g == g ==> events[k].now <= until)
  }

  /**
   A lease stands for its time: claimed or taken over at time c and not extended, a pending bracket stays
   with its worker through every take-over up to c + 30000, whatever else happens.
   */
  lemma {:induction false} LeaseStandsItsTime(states: seq<State>, events: seq<Event>, i: nat, j: nat, g: GroupId, worker: WorkerId, until: Time)
    requires Run(states, events) && i <= j < |states| && PendingThroughout(states, i, j, g)
    requires Leased(states[i].db, g, worker, until) && NotPastLease(events, i, j, g, until)
    ensures Leased(states[j].db, g, worker, until)
    decreases j - i
  {
    hide Apply, Enabled, Disciplined, Inv;
    if i < j {
      LeaseStandsItsTime(states, events, i, j - 1, g, worker, until);
      RunKeepsInv(states, events, j - 1);
      assert Pending(states[j - 1].db, g) by { PendingHasLegNow(states[j - 1], g); }
      assert states[j] == Apply(states[j - 1], events[j - 1]);
      StepKeepsLease(states[j - 1], events[j - 1], g);
    }
  }

  lemma PendingHasLegNow(s: State, g: GroupId)
    requires Inv(s) && g in s.db.groups && s.db.groups[g].status == GroupPendingFire
    ensures Pending(s.db, g)
  {
    hide DbOk, BrokerOk, TaskOk;
    PendingHasLeg(s.db, g);
  }

  /** The claimant keeps its bracket for thirty seconds. */
  lemma ClaimStandsThirtySeconds(states: seq<State>, events: seq<Event>, i: nat, j: nat, t: TaskId, leg: LegId, worker: WorkerId, now: Time)
    requires Run(states, events) && i < j < |states| && events[i] == ClaimEvent(t, leg, worker, now)
    requires Claim(states[i].db, leg, worker, now).Some?
    requires var g := states[i].db.legs[leg].group;
             PendingThroughout(states, i + 1, j, g) && NotPastLease(events, i + 1, j, g, now + 30_000)
    ensures Leased(states[j].db, states[i].db.legs[leg].group, worker, now + 30_000)
  {
    assert states[i + 1].db == Claim(states[i].db, leg, worker, now).value.db;
    hide Apply, Enabled, Disciplined, Inv, Claim;
    var g := states[i].db.legs[leg].group;
    LeaseIsThirtySeconds(states[i].db, leg, g, worker, now);
    LeaseStandsItsTime(states, events, i + 1, j, g, worker, now + 30_000);
  }

  /** And so does whoever took it over. */
  lemma TakeOverStandsThirtySeconds(states: seq<State>, events: seq<Event>, i: nat, j: nat, t: TaskId, g: GroupId, worker: WorkerId, now: Time)
    requires Run(states, events) && i < j < |states| && events[i] == TakeOverEvent(t, g, worker, now)
    requires TakeOver(states[i].db, g, worker, now).Some?
    requires PendingThroughout(states, i + 1, j, g) && NotPastLease(events, i + 1, j, g, now + 30_000)
    ensures Leased(states[j].db, g, worker, now + 30_000)
  {
    assert states[i + 1].db == TakeOver(states[i].db, g, worker, now).value;
    hide Apply, Enabled, Disciplined, Inv, TakeOver;
    LeaseIsThirtySeconds(states[i].db, 0, g, worker, now);
    LeaseStandsItsTime(states, events, i + 1, j, g, worker, now + 30_000);
  }

  /** After its time anyone can take a pending bracket, and holds it for thirty seconds of its own. */
  lemma ExpiredLeaseIsTaken(s: State, t: TaskId, g: GroupId, holder: WorkerId, until: Time, worker: WorkerId, now: Time)
    requires Inv(s) && t !in s.tasks && g in s.db.groups && s.db.groups[g].status.GroupPendingFire?
    requires Leased(s.db, g, holder, until) && until < now
    ensures Enabled(s, TakeOverEvent(t, g, worker, now))
    ensures var s' := Apply(s, TakeOverEvent(t, g, worker, now));
            && Leased(s'.db, g, worker, now + 30_000) && s'.db.legs == s.db.legs
            && t in s'.tasks && s'.tasks[t].worker == worker && s'.tasks[t].group == g && s.db.groups[g].fireLeg == Some(s'.tasks[t].leg)
            && s'.tasks[t].phase == Phase.Leased(s.db.groups[g].protectedQuantity)
  {
    hide DbOk, BrokerOk, TaskOk;
    PendingHasLegNow(s, g);
    assert Enabled(s, TakeOverEvent(t, g, worker, now));
  }

  // ---------------------------------------------------------------------------
  // One open close per position, told by the trade rows
  // ---------------------------------------------------------------------------

  /** In every reachable state at most one bracket of a position is working, claimed, or fired with a close the broker is not done with. */
  lemma OneOpenClosePerPosition(states: seq<State>, events: seq<Event>, i: nat, g: GroupId, h: GroupId)
    requires Run(states, events) && i < |states| && g in states[i].db.groups && h in states[i].db.groups
    requires states[i].db.groups[g].scope == states[i].db.groups[h].scope
    requires states[i].db.groups[g].status.GroupWorking? || CloseOpen(states[i].db, states[i].db.groups[g])
    requires states[i].db.groups[h].status.GroupWorking? || CloseOpen(states[i].db, states[i].db.groups[h])
    ensures g == h
  {
    hide CloseOpen, Reserves;
    ReservesMeans(states[i].db, states[i].db.groups[g]);
    ReservesMeans(states[i].db, states[i].db.groups[h]);
    OneLiveClosePerPosition(states, events, i, g, h);
  }

  /** Throughout this stretch the broker is not done with the order of leg k. */
  ghost predicate OpenThroughout(states: seq<State>, i: nat, j: nat, k: LegId)
    requires j < |states|
  {
    forall x :: i <= x <= j ==>
      && k in states[x].accepted && k in states[x].db.legs && states[x].db.legs[k].group in states[x].db.groups
      && !DoneAtBroker(states[x].db.trades, states[x].db.groups[states[x].db.legs[k].group].scope, states[x].accepted[k].order)
  }

  lemma OpenCloseReserves(s: State, k: LegId)
    requires Inv(s) && k in s.accepted && k in s.db.legs && s.db.legs[k].group in s.db.groups
    requires !DoneAtBroker(s.db.trades, s.db.groups[s.db.legs[k].group].scope, s.accepted[k].order)
    ensures Reserves(s.db, s.db.groups[s.db.legs[k].group])
  {
    hide TaskOk, DoneAtBroker, StatusesOf;
    var g := s.db.legs[k].group;
    assert AcceptedOk(s, k) && GroupOk(s.db, g);
    TerminalMeans(s.db.trades, s.db.groups[g].scope, s.accepted[k].order);
  }

  /**
   From an accepted close until its trade rows show nothing but filled, cancelled or rejected, no other
   close of the position is accepted: a partial fill does not make room for one.
   */
  lemma NoSecondCloseUntilDone(states: seq<State>, events: seq<Event>, i: nat, j: nat, k: LegId, m: LegId)
    requires Run(states, events) && i <= j < |states| && OpenThroughout(states, i, j, k)
    requires m in states[j].accepted && m in states[j].db.legs && states[j].db.legs[m].group in states[j].db.groups
    requires states[j].db.groups[states[j].db.legs[m].group].scope == states[j].db.groups[states[j].db.legs[k].group].scope
    ensures m == k || m in states[i].accepted
  {
    hide DbOk, BrokerOk, TaskOk, Apply, Enabled, Disciplined, Reserves, DoneAtBroker;
    var g := states[i].db.legs[k].group;
    forall x | i <= x <= j
      ensures g in states[x].db.groups && Reserves(states[x].db, states[x].db.groups[g]) && states[x].db.legs[k].group == g
    {
      AcceptedNeverRelabelled(states, events, i, x, k);
      RunKeepsInv(states, events, x);
      OpenCloseReserves(states[x], k);
    }
    NoSecondCloseWhileUnresolved(states, events, i, j, k, m);
  }
}
