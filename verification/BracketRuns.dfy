/**
 Claims over whole runs: what survives of a claim while anything else happens in between, what a
 lost lease means from then on, and how long a claimed size and an unresolved close hold.
 */
module BracketRuns {
  import opened Wrappers
  import opened BracketRules
  import opened BracketInvariant
  import opened BracketProtocol
  import opened BracketTheorems

  // ---------------------------------------------------------------------------
  // One step on a pending bracket
  // ---------------------------------------------------------------------------

  ghost predicate Pending(db: Db, g: GroupId) {
    g in db.groups && db.groups[g].status == GroupPendingFire && db.groups[g].fireLeg.Some?
  }

  /** The same claim: the same legs, untouched but for the fire leg's note, and the same group but for lease and note. */
  ghost predicate SameClaim(before: Db, after: Db, g: GroupId) {
    && Pending(before, g) && g in after.groups
    && var (a, b) := (before.groups[g], after.groups[g]);
    && b == a.(leaseOwner := b.leaseOwner, leaseExpires := b.leaseExpires, note := b.note)
    && (forall l :: l in after.legs && after.legs[l].group == g <==> l in before.legs && before.legs[l].group == g)
    && (forall l :: l in before.legs && before.legs[l].group == g ==>
          after.legs[l] == if Some(l) == a.fireLeg then before.legs[l].(note := after.legs[l].note) else before.legs[l])
  }

  /** What a step can make of a pending bracket: the same claim, its release, or its completion at the same size. */
  ghost predicate KeptReleasedOrFinished(before: Db, after: Db, g: GroupId) {
    && Pending(before, g) && g in after.groups
    && (SameClaim(before, after, g)
        || after.groups[g].status in {GroupWorking, GroupClosed}
        || (after.groups[g].status == GroupFired && after.groups[g].fireLeg == before.groups[g].fireLeg
            && after.groups[g].protectedQuantity == before.groups[g].protectedQuantity))
  }

  lemma ElsewhereKeeps(before: Db, after: Db, h: GroupId, g: GroupId)
    requires OnlyGroupChanged(before, after, h) && h != g && Pending(before, g)
    ensures KeptReleasedOrFinished(before, after, g)
  {
  }

  lemma NothingKeeps(before: Db, trades: seq<Trade>, g: GroupId)
    requires Pending(before, g)
    ensures KeptReleasedOrFinished(before, before.(trades := trades), g) && KeptReleasedOrFinished(before, before, g)
  {
  }

  lemma ArmKeepsClaim(s: State, req: ArmRequest, canonical: Option<GroupId>, existing: Option<LegId>, newId: LegId, now: Time, g: GroupId)
    requires Inv(s) && Enabled(s, ArmEvent(req, canonical, existing, newId, now)) && Pending(s.db, g)
    requires Arm(s.db, req, canonical, existing, newId, now).Success?
    ensures KeptReleasedOrFinished(s.db, Arm(s.db, req, canonical, existing, newId, now).value.0, g)
  {
    hide DbOk, BrokerOk, TaskOk, OnlyGroupChanged, SameClaim, IsCanonical, LegOk;
    ArmKeepsDb(s.db, req, canonical, existing, newId, now);
    EnsuredGroupAcceptsLeg(s.db, req, canonical, now);
    var armed := Arm(s.db, req, canonical, existing, newId, now).value;
    var h := armed.0.legs[armed.1].group;
    if h != g { ElsewhereKeeps(s.db, armed.0, h, g); }
  }

  lemma ResizeKeepsClaim(db: Db, user: UserId, leg: LegId, quantity: int, g: GroupId)
    requires DbOk(db) && Pending(db, g)
    ensures KeptReleasedOrFinished(db, KeepResult(db, Resize(db, user, leg, quantity)), g)
  {
    hide DbOk, OnlyGroupChanged, SameClaim, KeptReleasedOrFinished;
    NothingKeeps(db, db.trades, g);
    if Resize(db, user, leg, quantity).Success? {
      ResizeKeepsDb(db, user, leg, quantity);
      ElsewhereKeeps(db, Resize(db, user, leg, quantity).value, db.legs[leg].group, g);
    }
  }

  lemma ShrinkKeepsClaim(db: Db, h: GroupId, scope: Scope, held: int, g: GroupId)
    requires DbOk(db) && Pending(db, g)
    ensures KeptReleasedOrFinished(db, Keep(db, Shrink(db, h, scope, held)), g)
  {
    hide DbOk, OnlyGroupChanged, SameClaim, KeptReleasedOrFinished;
    NothingKeeps(db, db.trades, g);
    if Shrink(db, h, scope, held).Some? {
      ShrinkKeepsDb(db, h, scope, held);
      ElsewhereKeeps(db, Shrink(db, h, scope, held).value, h, g);
    }
  }

  /** A pending bracket has no working leg to retire. */
  lemma RetireKeepsClaim(db: Db, leg: LegId, status: LegStatus, reason: string, g: GroupId)
    requires DbOk(db) && Pending(db, g) && status in {Cancelled, Expired}
    ensures KeptReleasedOrFinished(db, Keep(db, RetireLeg(db, leg, status, reason)), g)
  {
    hide DbOk, OnlyGroupChanged, SameClaim, KeptReleasedOrFinished;
    NothingKeeps(db, db.trades, g);
    if RetireLeg(db, leg, status, reason).Some? {
      RetireLegKeepsDb(db, leg, status, reason);
      ClaimedGroup(db, g);
      ElsewhereKeeps(db, RetireLeg(db, leg, status, reason).value, db.legs[leg].group, g);
    }
  }

  lemma ClaimKeepsClaim(db: Db, leg: LegId, worker: WorkerId, now: Time, g: GroupId)
    requires DbOk(db) && Pending(db, g) && Claim(db, leg, worker, now).Some?
    ensures KeptReleasedOrFinished(db, Claim(db, leg, worker, now).value.db, g)
  {
    hide DbOk, OnlyGroupChanged, SameClaim, KeptReleasedOrFinished, UnresolvedClose;
    ClaimKeepsDb(db, leg, worker, now);
    ElsewhereKeeps(db, Claim(db, leg, worker, now).value.db, db.legs[leg].group, g);
  }

  lemma SettleKeepsClaim(s: State, t: TaskId, status: LegStatus, note: Note, reason: string, g: GroupId)
    requires Inv(s) && t in s.tasks && (s.tasks[t].phase.Firing? || s.tasks[t].phase.Refused?) && Pending(s.db, g)
    requires status in {Working, Failed, Expired} && !note.RetiredBy? && (status == Working ==> note == NoNote)
    ensures var task := s.tasks[t];
            KeptReleasedOrFinished(s.db, Keep(s.db, SettleNoSend(s.db, task.leg, task.phase.retired, status, note, task.worker, reason)), g)
  {
    hide DbOk, BrokerOk, SettleNoSend, OnlyGroupChanged, SameClaim;
    NothingKeeps(s.db, s.db.trades, g);
    var task := s.tasks[t];
    var settled := SettleNoSend(s.db, task.leg, task.phase.retired, status, note, task.worker, reason);
    if settled.Some? {
      assert TaskOk(s, t);
      SettleEndsClaim(s.db, task.leg, task.phase.retired, status, note, task.worker, reason);
      SettleKeepsDb(s.db, task.leg, task.phase.retired, status, note, task.worker, reason);
      if task.group != g { ElsewhereKeeps(s.db, settled.value, task.group, g); }
    }
  }

  lemma FinishKeepsClaim(s: State, t: TaskId, g: GroupId)
    requires Inv(s) && Enabled(s, FinishEvent(t)) && Pending(s.db, g)
    ensures var task := s.tasks[t];
            KeptReleasedOrFinished(s.db, Keep(s.db, Finish(s.db, task.leg, task.phase.order, task.worker)), g)
  {
    hide DbOk, BrokerOk, Finish, OnlyGroupChanged, SameClaim;
    NothingKeeps(s.db, s.db.trades, g);
    var task := s.tasks[t];
    var finished := Finish(s.db, task.leg, task.phase.order, task.worker);
    if finished.Some? {
      assert TaskOk(s, t);
      FinishEndsClaim(s.db, task.leg, task.phase.order, task.worker);
      FinishKeepsDb(s.db, task.leg, task.phase.order, task.worker);
      if task.group != g { ElsewhereKeeps(s.db, finished.value, task.group, g); }
    }
  }

  lemma NotesKeepClaim(db: Db, h: GroupId, worker: WorkerId, time: Time, leg: LegId, text: string, g: GroupId)
    requires DbOk(db) && Pending(db, g)
    ensures KeptReleasedOrFinished(db, Keep(db, TakeOver(db, h, worker, time)), g)
    ensures KeptReleasedOrFinished(db, Extend(db, h, time, text), g)
    ensures KeptReleasedOrFinished(db, Annotate(db, leg, text), g)
  {
    hide DbOk;
    ClaimedGroup(db, g);
  }

  /** Whatever step is taken, a pending bracket stays exactly as claimed, or is released, or is finished. */
  lemma StepOnPending(s: State, e: Event, g: GroupId)
    requires Inv(s) && Enabled(s, e) && Pending(s.db, g)
    ensures KeptReleasedOrFinished(s.db, Apply(s, e).db, g)
  {
    hide DbOk, BrokerOk, TaskOk, SameClaim, KeptReleasedOrFinished, Arm, Resize, Shrink, RetireLeg, Claim, SettleNoSend, Finish,
         TakeOver, Prepare, Extend, Annotate, EnsureGroup, IsCanonical, IsLegOfKind, Place, PlaceEnabled;
    NothingKeeps(s.db, s.db.trades, g);
    if ByWorker(e) {
      WorkerOnPending(s, e, g);
    } else {
      match e {
        case ArmEvent(req, canonical, existing, newId, now) =>
          if Arm(s.db, req, canonical, existing, newId, now).Success? { ArmKeepsClaim(s, req, canonical, existing, newId, now, g); }
        case ResizeEvent(user, leg, quantity) => ResizeKeepsClaim(s.db, user, leg, quantity, g);
        case ShrinkEvent(h, scope, held) => ShrinkKeepsClaim(s.db, h, scope, held, g);
        case CancelEvent(user, leg) => CancelKeepsClaim(s.db, user, leg, g);
        case OrphanEvent(leg) => RetireKeepsClaim(s.db, leg, Cancelled, "All bracket legs orphaned from the broker position", g);
        case ExpireEvent(leg, now) => ExpireKeepsClaim(s.db, leg, now, g);
        case ExtendEvent(h, until, text) => NotesKeepClaim(s.db, h, 0, until, 0, text, g);
        case AnnotateEvent(leg, text) => NotesKeepClaim(s.db, g, 0, 0, leg, text, g);
        case TradesEvent(trades) => NothingKeeps(s.db, trades, g);
        case _ =>
      }
    }
  }

  lemma CancelKeepsClaim(db: Db, user: UserId, leg: LegId, g: GroupId)
    requires DbOk(db) && Pending(db, g)
    ensures KeptReleasedOrFinished(db, KeepResult(db, CancelLeg(db, user, leg)), g)
  {
    hide DbOk, RetireLeg, KeptReleasedOrFinished;
    NothingKeeps(db, db.trades, g);
    RetireKeepsClaim(db, leg, Cancelled, "All bracket legs cancelled", g);
  }

  lemma ExpireKeepsClaim(db: Db, leg: LegId, now: Time, g: GroupId)
    requires DbOk(db) && Pending(db, g)
    ensures KeptReleasedOrFinished(db, Keep(db, ExpireLeg(db, leg, now)), g)
  {
    hide DbOk, RetireLeg, KeptReleasedOrFinished;
    NothingKeeps(db, db.trades, g);
    RetireKeepsClaim(db, leg, Expired, "All bracket legs expired", g);
  }

  lemma EndingOnPending(s: State, e: Event, g: GroupId)
    requires Inv(s) && Enabled(s, e) && (e.UnclaimEvent? || e.SettleEvent? || e.FinishEvent?) && Pending(s.db, g)
    ensures KeptReleasedOrFinished(s.db, Apply(s, e).db, g)
  {
    hide DbOk, BrokerOk, TaskOk, SameClaim, KeptReleasedOrFinished, SettleNoSend, Finish, Arm, Resize, Shrink, RetireLeg, CancelLeg,
         ExpireLeg, Extend, Annotate, Claim, TakeOver, Prepare, GiveUp, Place, PlaceEnabled, EnsureGroup, IsCanonical, IsLegOfKind;
    match e {
      case UnclaimEvent(t, status) => SettleKeepsClaim(s, t, status, NoNote, "Bracket fire was unclaimed before broker placement", g);
      case SettleEvent(t, text) => SettleKeepsClaim(s, t, Failed, Message(text), "Bracket fire was rejected before broker acceptance", g);
      case FinishEvent(t) => FinishKeepsClaim(s, t, g);
    }
  }

  lemma WorkerOnPending(s: State, e: Event, g: GroupId)
    requires Inv(s) && Enabled(s, e) && ByWorker(e) && Pending(s.db, g)
    ensures KeptReleasedOrFinished(s.db, Apply(s, e).db, g)
  {
    hide DbOk, BrokerOk, TaskOk, SameClaim, KeptReleasedOrFinished, Claim, SettleNoSend, Finish, TakeOver, Prepare, Place, PlaceEnabled;
    NothingKeeps(s.db, s.db.trades, g);
    match e {
      case ClaimEvent(_, leg, worker, now) =>
        if Claim(s.db, leg, worker, now).Some? { ClaimKeepsClaim(s.db, leg, worker, now, g); }
      case PlaceEvent(t, outcome) => PlaceKeepsRows(s, t, outcome);
      case TakeOverEvent(_, h, worker, now) => NotesKeepClaim(s.db, h, worker, now, 0, "", g);
      case PrepareEvent(t, now) => PrepareKeepsRows(s, t, now);
      case _ => EndingOnPending(s, e, g);
    }
  }

  // ---------------------------------------------------------------------------
  // A claim across a crash
  // ---------------------------------------------------------------------------

  ghost predicate PendingThroughout(states: seq<State>, i: nat, j: nat, g: GroupId)
    requires j < |states|
  {
    forall k :: i <= k <= j ==> g in states[k].db.groups && states[k].db.groups[g].status == GroupPendingFire
  }

  lemma PendingHasLeg(db: Db, g: GroupId)
    requires DbOk(db) && g in db.groups && db.groups[g].status == GroupPendingFire
    ensures Pending(db, g)
  {
    hide DbOk;
    ClaimedGroup(db, g);
  }

  lemma SameClaimTwice(a: Db, b: Db, c: Db, g: GroupId)
    requires SameClaim(a, b, g) && SameClaim(b, c, g)
    ensures SameClaim(a, c, g)
  {
  }

  /** While a bracket stays pending, its legs stay as claimed, however many steps of anyone lie in between. */
  lemma {:induction false} ClaimIsKept(states: seq<State>, events: seq<Event>, i: nat, j: nat, g: GroupId)
    requires Run(states, events) && i <= j < |states| && PendingThroughout(states, i, j, g)
    ensures SameClaim(states[i].db, states[j].db, g)
    decreases j - i
  {
    hide DbOk, BrokerOk, TaskOk, Apply, Enabled, Disciplined, SameClaim, Pending;
    RunKeepsInv(states, events, i);
    PendingHasLeg(states[i].db, g);
    if i == j {
      SameClaimRefl(states[i].db, g);
    } else {
      ClaimIsKept(states, events, i, j - 1, g);
      RunKeepsInv(states, events, j - 1);
      PendingHasLeg(states[j - 1].db, g);
      StepOnPending(states[j - 1], events[j - 1], g);
      SameClaimTwice(states[i].db, states[j - 1].db, states[j].db, g);
    }
  }

  lemma SameClaimRefl(db: Db, g: GroupId)
    requires Pending(db, g)
    ensures SameClaim(db, db, g)
  {
  }

  /** The rows right after a claim, seen from any later moment at which it is still the same claim. */
  lemma ClaimSeenLater(db: Db, leg: LegId, worker: WorkerId, now: Time, later: Db)
    requires DbOk(db) && Claim(db, leg, worker, now).Some? && DbOk(later)
    requires SameClaim(Claim(db, leg, worker, now).value.db, later, db.legs[leg].group)
    ensures var claim := Claim(db, leg, worker, now).value; var g := db.legs[leg].group;
            && leg in later.legs && later.legs[leg].group == g && later.legs[leg].status == PendingFire
            && later.legs[leg] == db.legs[leg].(status := PendingFire, triggeredAt := Some(now), note := later.legs[leg].note)
            && (forall l :: l in later.legs && later.legs[l].group == g <==> l in db.legs && db.legs[l].group == g)
            && (forall l :: l in db.legs && db.legs[l].group == g && l != leg ==> later.legs[l] == claim.db.legs[l])
            && MarkedBy(later, leg) == claim.retired
            && g in later.groups && later.groups[g].protectedQuantity == db.groups[g].protectedQuantity
            && later.groups[g].fireLeg == Some(leg)
  {
    hide DbOk, UnresolvedClose;
    var claim := Claim(db, leg, worker, now).value;
    ClaimedLegs(db, leg, worker, now);
    ClaimMarksSiblings(db, leg, worker, now);
    forall l | l in MarkedBy(later, leg) ensures l in claim.retired {
      MarkStaysInGroup(later, l, leg);
      assert l != leg ==> later.legs[l] == claim.db.legs[l];
      assert l in MarkedBy(claim.db, leg);
    }
    forall l | l in claim.retired ensures l in MarkedBy(later, leg) {
      assert later.legs[l] == claim.db.legs[l];
    }
  }

  /**
   A claim survives whatever happens between: as long as its bracket stays pending, the retirement
   markers name exactly the siblings the claim retired, their rows are those the claim wrote, and
   recovery finds that set and has nothing to repair.
   */
  lemma ClaimSurvivesInBetween(states: seq<State>, events: seq<Event>, i: nat, j: nat, t: TaskId, leg: LegId, worker: WorkerId, now: Time,
                               later: Time)
    requires Run(states, events) && i < j < |states| && events[i] == ClaimEvent(t, leg, worker, now)
    requires Claim(states[i].db, leg, worker, now).Some? && PendingThroughout(states, i + 1, j, states[i].db.legs[leg].group)
    ensures var claim := Claim(states[i].db, leg, worker, now).value; var g := states[i].db.legs[leg].group;
            && MarkedBy(states[j].db, leg) == claim.retired
            && (forall l :: l in states[i].db.legs && states[i].db.legs[l].group == g && l != leg ==>
                  l in states[j].db.legs && states[j].db.legs[l] == claim.db.legs[l])
            && Prepare(states[j].db, leg, g, later) == Some(Prepared(states[j].db, claim.retired))
  {
    var g := states[i].db.legs[leg].group;
    assert states[i + 1].db == Claim(states[i].db, leg, worker, now).value.db;
    hide DbOk, BrokerOk, TaskOk, Apply, Enabled, Disciplined, SameClaim, Prepare, Claim;
    RunKeepsInv(states, events, i);
    RunKeepsInv(states, events, j);
    ClaimIsKept(states, events, i + 1, j, g);
    ClaimSeenLater(states[i].db, leg, worker, now, states[j].db);
    PendingIsHeld(states[j].db, leg, g);
    PrepareFindsClaim(states[j].db, leg, states[j].db.groups[g].leaseOwner.value, later);
  }

  /** The process that holds the claim, first or by take-over, works with exactly the siblings the claim retired. */
  lemma HolderKnowsSiblings(states: seq<State>, events: seq<Event>, i: nat, j: nat, t: TaskId, leg: LegId, worker: WorkerId, now: Time, u: TaskId)
    requires Run(states, events) && i < j < |states| && events[i] == ClaimEvent(t, leg, worker, now)
    requires Claim(states[i].db, leg, worker, now).Some? && PendingThroughout(states, i + 1, j, states[i].db.legs[leg].group)
    requires u in states[j].tasks && states[j].tasks[u].leg == leg && HoldsClaim(states[j].db, leg, states[j].tasks[u].worker)
    ensures var (phase, retired) := (states[j].tasks[u].phase, Claim(states[i].db, leg, worker, now).value.retired);
            (phase.Refused? ==> phase.retired == retired) && (CallsPlace(phase) ==> RetiredSet(phase) == retired)
  {
    hide DbOk, BrokerOk, Apply, Enabled, Disciplined, Claim, Prepare;
    ClaimSurvivesInBetween(states, events, i, j, t, leg, worker, now, now);
    RunKeepsInv(states, events, j);
    assert TaskOk(states[j], u);
  }

  lemma PendingIsHeld(db: Db, leg: LegId, g: GroupId)
    requires DbOk(db) && g in db.groups && db.groups[g].status == GroupPendingFire && db.groups[g].fireLeg == Some(leg)
    ensures db.groups[g].leaseOwner.Some? && leg in db.legs && db.legs[leg].group == g
    ensures HoldsClaim(db, leg, db.groups[g].leaseOwner.value)
  {
    hide DbOk;
    ClaimedGroup(db, g);
  }

  /**
   Whoever holds such a claim at last and unwinds it, after any number of steps, crashes and
   take-overs: each sibling is again the row it was before the claim, the fire leg alone is settled,
   and every other bracket is left as it stands.
   */
  lemma UnwindingRestoresClaim(states: seq<State>, events: seq<Event>, i: nat, j: nat, t: TaskId, leg: LegId, worker: WorkerId, now: Time,
                               holder: WorkerId, status: LegStatus, note: Note, reason: string)
    requires Run(states, events) && i < j < |states| && events[i] == ClaimEvent(t, leg, worker, now)
    requires Claim(states[i].db, leg, worker, now).Some? && PendingThroughout(states, i + 1, j, states[i].db.legs[leg].group)
    requires HoldsClaim(states[j].db, leg, holder)
    requires status in {Working, Failed, Expired} && !note.RetiredBy? && (status == Working ==> note == NoNote)
    ensures var retired := Claim(states[i].db, leg, worker, now).value.retired; var (first, last) := (states[i].db, states[j].db);
            var g := first.legs[leg].group;
            && SettleNoSend(last, leg, retired, status, note, holder, reason).Some?
            && var settled := SettleNoSend(last, leg, retired, status, note, holder, reason).value;
            && settled.legs.Keys == last.legs.Keys
            && (forall l :: l in last.legs ==>
                  settled.legs[l] ==
                  if l == leg then first.legs[leg].(status := status, note := note, triggeredAt := if status == Working then None else Some(now))
                  else if l in first.legs && first.legs[l].group == g then first.legs[l]
                  else last.legs[l])
            && (forall h :: h in last.groups && h != g ==> h in settled.groups && settled.groups[h] == last.groups[h])
            && g in settled.groups && settled.groups[g].protectedQuantity == first.groups[g].protectedQuantity
            && (retired != {} || status == Working ==> settled.groups[g].status == GroupWorking)
  {
    var g := states[i].db.legs[leg].group;
    assert states[i + 1].db == Claim(states[i].db, leg, worker, now).value.db;
    hide DbOk, BrokerOk, TaskOk, Apply, Enabled, Disciplined, SameClaim, SettleNoSend, Claim;
    RunKeepsInv(states, events, i);
    RunKeepsInv(states, events, j);
    ClaimIsKept(states, events, i + 1, j, g);
    UnwindSeenLater(states[i].db, leg, worker, now, states[j].db, holder, status, note, reason);
  }

  lemma UnwindSeenLater(db: Db, leg: LegId, worker: WorkerId, now: Time, later: Db, holder: WorkerId, status: LegStatus, note: Note, reason: string)
    requires DbOk(db) && Claim(db, leg, worker, now).Some? && DbOk(later) && HoldsClaim(later, leg, holder)
    requires SameClaim(Claim(db, leg, worker, now).value.db, later, db.legs[leg].group)
    requires status in {Working, Failed, Expired} && !note.RetiredBy? && (status == Working ==> note == NoNote)
    ensures var retired := Claim(db, leg, worker, now).value.retired; var g := db.legs[leg].group;
            && SettleNoSend(later, leg, retired, status, note, holder, reason).Some?
            && var settled := SettleNoSend(later, leg, retired, status, note, holder, reason).value;
            && settled.legs.Keys == later.legs.Keys
            && (forall l :: l in later.legs ==>
                  settled.legs[l] ==
                  if l == leg then db.legs[leg].(status := status, note := note, triggeredAt := if status == Working then None else Some(now))
                  else if l in db.legs && db.legs[l].group == g then db.legs[l]
                  else later.legs[l])
            && (forall h :: h in later.groups && h != g ==> h in settled.groups && settled.groups[h] == later.groups[h])
            && g in settled.groups && settled.groups[g].protectedQuantity == db.groups[g].protectedQuantity
            && (retired != {} || status == Working ==> settled.groups[g].status == GroupWorking)
  {
    var claim := Claim(db, leg, worker, now).value;
    var g := db.legs[leg].group;
    ClaimedLegs(db, leg, worker, now);
    ClaimSeenLater(db, leg, worker, now, later);
    hide DbOk, Claim, SameClaim, SettleNoSend, Released;
    forall l | l in claim.retired ensures Restorable(later, leg, l) { }
    SettlesWhenHeld(later, leg, claim.retired, status, note, holder, reason);
    ReleasedRows(db, later, leg, claim.retired, now, status, note);
    var mid := Released(later, leg, claim.retired, status, note);
    CloseIfEmptyMeans(mid, g, reason);
    if status == Working {
      assert mid.legs[leg].status == Working;
    } else if claim.retired != {} {
      var l :| l in claim.retired;
      assert mid.legs[l].status == Working && mid.legs[l].group == g;
    }
  }

  lemma SettlesWhenHeld(db: Db, leg: LegId, retired: set<LegId>, status: LegStatus, note: Note, worker: WorkerId, reason: string)
    requires HoldsClaim(db, leg, worker) && db.legs[leg].status == PendingFire
    requires forall l :: l in retired ==> Restorable(db, leg, l)
    ensures SettleNoSend(db, leg, retired, status, note, worker, reason) ==
            Some(CloseIfEmpty(Released(db, leg, retired, status, note), db.legs[leg].group, reason))
  {
    hide Released, CloseIfEmpty, Restorable;
  }

  /** Releasing gives every leg of the bracket its row of before the claim. */
  lemma ReleasedRows(db: Db, later: Db, leg: LegId, retired: set<LegId>, now: Time, status: LegStatus, note: Note)
    requires leg in db.legs && leg in later.legs && leg !in retired
    requires var g := db.legs[leg].group;
             && later.legs[leg].group == g && g in later.groups
             && later.legs[leg] == db.legs[leg].(status := PendingFire, triggeredAt := Some(now), note := later.legs[leg].note)
             && (forall l :: l in later.legs && later.legs[l].group == g <==> l in db.legs && db.legs[l].group == g)
             && (forall l :: l in retired ==>
                   l in db.legs && l in later.legs && db.legs[l].group == g && db.legs[l].status == Working &&
                   db.legs[l].triggeredAt.None? && db.legs[l].note.NoNote? &&
                   later.legs[l] == db.legs[l].(status := Cancelled, note := RetiredBy(leg)))
             && (forall l :: l in db.legs && db.legs[l].group == g && l != leg && l !in retired ==> later.legs[l] == db.legs[l])
    ensures var g := db.legs[leg].group; var mid := Released(later, leg, retired, status, note);
            && mid.legs.Keys == later.legs.Keys && mid.groups.Keys == later.groups.Keys
            && (forall l :: l in later.legs ==>
                  mid.legs[l] ==
                  if l == leg then db.legs[leg].(status := status, note := note, triggeredAt := if status == Working then None else Some(now))
                  else if l in db.legs && db.legs[l].group == g then db.legs[l]
                  else later.legs[l])
            && (forall h :: h in later.groups && h != g ==> mid.groups[h] == later.groups[h])
            && mid.groups[g].protectedQuantity == later.groups[g].protectedQuantity && mid.groups[g].status == GroupWorking
  {
  }

  lemma CloseIfEmptyMeans(db: Db, g: GroupId, reason: string)
    requires g in db.groups
    ensures var after := CloseIfEmpty(db, g, reason);
            && after.legs == db.legs && after.groups.Keys == db.groups.Keys
            && (forall h :: h in db.groups && h != g ==> after.groups[h] == db.groups[h])
            && after.groups[g].protectedQuantity == db.groups[g].protectedQuantity
            && (HasActiveLeg(db, g) ==> after.groups[g].status == db.groups[g].status)
  {
  }

  // ---------------------------------------------------------------------------
  // A lost lease stays lost
  // ---------------------------------------------------------------------------

  /** No leg's claim comes into anyone's hands. */
  ghost predicate NoNewHolder(before: Db, after: Db, leg: LegId, worker: WorkerId) {
    leg in before.legs && leg in after.legs && (HoldsClaim(after, leg, worker) ==> HoldsClaim(before, leg, worker))
  }

  lemma SameRowsSameHolder(db: Db, trades: seq<Trade>, leg: LegId, worker: WorkerId)
    requires leg in db.legs
    ensures NoNewHolder(db, db.(trades := trades), leg, worker) && NoNewHolder(db, db, leg, worker)
  {
  }

  lemma ArmMakesNoHolder(db: Db, req: ArmRequest, canonical: Option<GroupId>, existing: Option<LegId>, newId: LegId, now: Time,
                         leg: LegId, worker: WorkerId)
    requires DbOk(db) && newId !in db.legs && IsCanonical(db, req.scope, canonical) && leg in db.legs
    requires Arm(db, req, canonical, existing, newId, now).Success?
    ensures NoNewHolder(db, Arm(db, req, canonical, existing, newId, now).value.0, leg, worker)
  {
    hide DbOk, IsCanonical;
    EnsuredGroupAcceptsLeg(db, req, canonical, now);
  }

  lemma SizesMakeNoHolder(db: Db, user: UserId, resized: LegId, quantity: int, h: GroupId, scope: Scope, leg: LegId, worker: WorkerId)
    requires leg in db.legs
    ensures NoNewHolder(db, KeepResult(db, Resize(db, user, resized, quantity)), leg, worker)
    ensures NoNewHolder(db, Keep(db, Shrink(db, h, scope, quantity)), leg, worker)
  {
  }

  lemma RetireMakesNoHolder(db: Db, retired: LegId, status: LegStatus, reason: string, leg: LegId, worker: WorkerId)
    requires leg in db.legs
    ensures NoNewHolder(db, Keep(db, RetireLeg(db, retired, status, reason)), leg, worker)
  {
    hide HasActiveLeg;
  }

  lemma CancelMakesNoHolder(db: Db, user: UserId, cancelled: LegId, leg: LegId, worker: WorkerId)
    requires leg in db.legs
    ensures NoNewHolder(db, KeepResult(db, CancelLeg(db, user, cancelled)), leg, worker)
  {
    hide RetireLeg, NoNewHolder;
    SameRowsSameHolder(db, db.trades, leg, worker);
    RetireMakesNoHolder(db, cancelled, Cancelled, "All bracket legs cancelled", leg, worker);
  }

  lemma ExpireMakesNoHolder(db: Db, expired: LegId, now: Time, leg: LegId, worker: WorkerId)
    requires leg in db.legs
    ensures NoNewHolder(db, Keep(db, ExpireLeg(db, expired, now)), leg, worker)
  {
    hide RetireLeg, NoNewHolder;
    SameRowsSameHolder(db, db.trades, leg, worker);
    RetireMakesNoHolder(db, expired, Expired, "All bracket legs expired", leg, worker);
  }

  lemma SettleMakesNoHolder(db: Db, settled: LegId, retired: set<LegId>, status: LegStatus, note: Note, owner: WorkerId, reason: string,
                            leg: LegId, worker: WorkerId)
    requires leg in db.legs
    ensures NoNewHolder(db, Keep(db, SettleNoSend(db, settled, retired, status, note, owner, reason)), leg, worker)
  {
    hide HasActiveLeg, Restorable;
  }

  lemma FinishMakesNoHolder(db: Db, finished: LegId, order: OrderId, owner: WorkerId, leg: LegId, worker: WorkerId)
    requires leg in db.legs
    ensures NoNewHolder(db, Keep(db, Finish(db, finished, order, owner)), leg, worker)
  {
  }

  lemma NotesMakeNoHolder(db: Db, h: GroupId, until: Time, noted: LegId, text: string, leg: LegId, worker: WorkerId)
    requires leg in db.legs
    ensures NoNewHolder(db, Extend(db, h, until, text), leg, worker) && NoNewHolder(db, Annotate(db, noted, text), leg, worker)
  {
  }

  /** The attempt's own process takes the bracket over again. */
  predicate Retakes(s: State, e: Event, t: TaskId)
    requires t in s.tasks
  {
    e.TakeOverEvent? && e.g == s.tasks[t].group && e.worker == s.tasks[t].worker
  }

  /** A claim or a take-over gives an attempt its lease back only by retaking, and only when it was acknowledged. */
  lemma ClaimFencesOthers(s: State, t: TaskId, u: TaskId, claimed: LegId, worker: WorkerId, now: Time)
    requires Inv(s) && Enabled(s, ClaimEvent(u, claimed, worker, now)) && Disciplined(s, ClaimEvent(u, claimed, worker, now))
    requires Claim(s.db, claimed, worker, now).Some? && t in s.tasks
    ensures NoNewHolder(s.db, Claim(s.db, claimed, worker, now).value.db, s.tasks[t].leg, s.tasks[t].worker)
  {
    hide DbOk, UnresolvedClose;
    assert TaskOk(s, t);
    assert s.tasks[t].leg in s.accepted ==> AcceptedOk(s, s.tasks[t].leg);
  }

  lemma TakeOverFencesTask(s: State, t: TaskId, u: TaskId, g: GroupId, worker: WorkerId, now: Time)
    requires Inv(s) && Enabled(s, TakeOverEvent(u, g, worker, now)) && Disciplined(s, TakeOverEvent(u, g, worker, now))
    requires TakeOver(s.db, g, worker, now).Some? && t in s.tasks
    requires s.tasks[t].phase.Acknowledged? ==> !Retakes(s, TakeOverEvent(u, g, worker, now), t)
    ensures NoNewHolder(s.db, TakeOver(s.db, g, worker, now).value, s.tasks[t].leg, s.tasks[t].worker)
  {
    hide DbOk, BrokerOk;
    assert TaskOk(s, t);
  }

  lemma PlacingKeepsIdentity(s: State, u: TaskId, outcome: Outcome, t: TaskId)
    requires Enabled(s, PlaceEvent(u, outcome)) && t in s.tasks && t in Place(s, u, outcome).tasks
    ensures Place(s, u, outcome).tasks[t].(phase := s.tasks[t].phase) == s.tasks[t]
    ensures s.tasks[t].phase.Acknowledged? ==> Place(s, u, outcome).tasks[t].phase.Acknowledged?
  {
  }

  lemma EndingLeavesOthers(s: State, e: Event, t: TaskId)
    requires Enabled(s, e) && (e.UnclaimEvent? || e.SettleEvent? || e.FinishEvent?) && t in s.tasks && t in Apply(s, e).tasks
    ensures Apply(s, e).tasks[t] == s.tasks[t]
  {
    hide SettleNoSend, Finish, Place, PlaceEnabled, Claim, TakeOver, Prepare, GiveUp, Arm, Resize, Shrink, RetireLeg, CancelLeg, ExpireLeg,
         Extend, Annotate, EnsureGroup, IsCanonical, IsLegOfKind;
  }

  lemma WorkingKeepsIdentity(s: State, e: Event, t: TaskId)
    requires Enabled(s, e) && ByWorker(e) && t in s.tasks && t in Apply(s, e).tasks
    ensures Apply(s, e).tasks[t].(phase := s.tasks[t].phase) == s.tasks[t]
    ensures s.tasks[t].phase.Acknowledged? ==> Apply(s, e).tasks[t].phase.Acknowledged?
  {
    hide Place, PlaceEnabled, Claim, SettleNoSend, Finish, TakeOver, Prepare, GiveUp, Arm, Resize, Shrink, RetireLeg, CancelLeg, ExpireLeg,
         Extend, Annotate, EnsureGroup, IsCanonical, IsLegOfKind;
    match e {
      case PlaceEvent(u, outcome) => PlacingKeepsIdentity(s, u, outcome, t);
      case ClaimEvent(_, _, _, _) =>
      case TakeOverEvent(_, _, _, _) =>
      case PrepareEvent(_, _) =>
      case _ => EndingLeavesOthers(s, e, t);
    }
  }

  /** A worker's leg, bracket and identity never change, and once acknowledged it stays so. */
  lemma TaskKeepsIdentity(s: State, e: Event, t: TaskId)
    requires Enabled(s, e) && t in s.tasks && t in Apply(s, e).tasks
    ensures Apply(s, e).tasks[t].(phase := s.tasks[t].phase) == s.tasks[t]
    ensures s.tasks[t].phase.Acknowledged? ==> Apply(s, e).tasks[t].phase.Acknowledged?
  {
    hide Arm, Resize, Shrink, RetireLeg, CancelLeg, ExpireLeg, Extend, Annotate, EnsureGroup, IsCanonical, IsLegOfKind, Place, PlaceEnabled,
         Claim, SettleNoSend, Finish, TakeOver, Prepare;
    if ByWorker(e) { WorkingKeepsIdentity(s, e, t); }
  }

  lemma StepKeepsFenced(s: State, e: Event, t: TaskId)
    requires Inv(s) && Enabled(s, e) && Disciplined(s, e) && t in s.tasks
    requires s.tasks[t].phase.Acknowledged? ==> !Retakes(s, e, t)
    ensures NoNewHolder(s.db, Apply(s, e).db, s.tasks[t].leg, s.tasks[t].worker)
  {
    hide DbOk, BrokerOk, NoNewHolder, Arm, Resize, Shrink, RetireLeg, CancelLeg, ExpireLeg, Extend, Annotate, EnsureGroup, IsCanonical,
         IsLegOfKind, Disciplined, Claim, SettleNoSend, Finish, TakeOver, Prepare, GiveUp, Place, PlaceEnabled, TaskOk, HoldsClaim;
    TaskLegIsThere(s, t);
    var (leg, worker) := (s.tasks[t].leg, s.tasks[t].worker);
    SameRowsSameHolder(s.db, s.db.trades, leg, worker);
    if ByWorker(e) {
      WorkerKeepsFenced(s, e, t);
    } else {
      match e {
        case ArmEvent(req, canonical, existing, newId, now) =>
          if Arm(s.db, req, canonical, existing, newId, now).Success? {
            ArmMakesNoHolder(s.db, req, canonical, existing, newId, now, leg, worker);
          }
        case ResizeEvent(user, resized, quantity) => SizesMakeNoHolder(s.db, user, resized, quantity, 0, ANY_SCOPE, leg, worker);
        case ShrinkEvent(h, scope, held) => SizesMakeNoHolder(s.db, "", 0, held, h, scope, leg, worker);
        case CancelEvent(user, cancelled) => CancelMakesNoHolder(s.db, user, cancelled, leg, worker);
        case OrphanEvent(retired) =>
          RetireMakesNoHolder(s.db, retired, Cancelled, "All bracket legs orphaned from the broker position", leg, worker);
        case ExpireEvent(expired, now) => ExpireMakesNoHolder(s.db, expired, now, leg, worker);
        case ExtendEvent(h, until, text) => NotesMakeNoHolder(s.db, h, until, 0, text, leg, worker);
        case AnnotateEvent(noted, text) => NotesMakeNoHolder(s.db, 0, 0, noted, text, leg, worker);
        case TradesEvent(trades) => SameRowsSameHolder(s.db, trades, leg, worker);
        case _ =>
      }
    }
  }

  const ANY_SCOPE := Scope("", Webull, Live, "", "", Sell)

  lemma LeasingKeepsFenced(s: State, e: Event, t: TaskId)
    requires Inv(s) && Enabled(s, e) && Disciplined(s, e) && (e.ClaimEvent? || e.TakeOverEvent?) && t in s.tasks
    requires s.tasks[t].phase.Acknowledged? ==> !Retakes(s, e, t)
    ensures NoNewHolder(s.db, Apply(s, e).db, s.tasks[t].leg, s.tasks[t].worker)
  {
    hide DbOk, BrokerOk, NoNewHolder, Claim, TakeOver, Quiet, NoRefusedAttempt;
    assert s.tasks[t].leg in s.db.legs by { assert TaskOk(s, t); }
    hide TaskOk;
    SameRowsSameHolder(s.db, s.db.trades, s.tasks[t].leg, s.tasks[t].worker);
    match e {
      case ClaimEvent(u, claimed, taker, now) => if Claim(s.db, claimed, taker, now).Some? { ClaimFencesOthers(s, t, u, claimed, taker, now); }
      case TakeOverEvent(u, g, taker, now) => if TakeOver(s.db, g, taker, now).Some? { TakeOverFencesTask(s, t, u, g, taker, now); }
    }
  }

  lemma TaskLegIsThere(s: State, t: TaskId)
    requires Inv(s) && t in s.tasks
    ensures s.tasks[t].leg in s.db.legs
  {
    hide DbOk, BrokerOk;
    TaskLegExists(s, t);
  }

  lemma EndingKeepsFenced(s: State, e: Event, t: TaskId)
    requires Inv(s) && Enabled(s, e) && (e.UnclaimEvent? || e.SettleEvent? || e.FinishEvent?) && t in s.tasks
    ensures NoNewHolder(s.db, Apply(s, e).db, s.tasks[t].leg, s.tasks[t].worker)
  {
    hide DbOk, BrokerOk, NoNewHolder, SettleNoSend, Finish, Arm, Resize, Shrink, RetireLeg, CancelLeg, ExpireLeg, Extend, Annotate, Claim,
         TakeOver, Prepare, GiveUp, Place, PlaceEnabled, EnsureGroup, IsCanonical, IsLegOfKind, TaskOk;
    TaskLegIsThere(s, t);
    var (leg, worker, task) := (s.tasks[t].leg, s.tasks[t].worker, s.tasks[e.t]);
    match e {
      case UnclaimEvent(_, status) =>
        SettleMakesNoHolder(s.db, task.leg, task.phase.retired, status, NoNote, task.worker,
                            "Bracket fire was unclaimed before broker placement", leg, worker);
      case SettleEvent(_, text) =>
        SettleMakesNoHolder(s.db, task.leg, task.phase.retired, Failed, Message(text), task.worker,
                            "Bracket fire was rejected before broker acceptance", leg, worker);
      case FinishEvent(_) => FinishMakesNoHolder(s.db, task.leg, task.phase.order, task.worker, leg, worker);
    }
  }

  lemma WorkerKeepsFenced(s: State, e: Event, t: TaskId)
    requires Inv(s) && Enabled(s, e) && Disciplined(s, e) && ByWorker(e) && t in s.tasks
    requires s.tasks[t].phase.Acknowledged? ==> !Retakes(s, e, t)
    ensures NoNewHolder(s.db, Apply(s, e).db, s.tasks[t].leg, s.tasks[t].worker)
  {
    hide DbOk, BrokerOk, NoNewHolder, Claim, SettleNoSend, Finish, TakeOver, Prepare, Place, PlaceEnabled, Disciplined;
    if e.ClaimEvent? || e.TakeOverEvent? {
      LeasingKeepsFenced(s, e, t);
    } else if e.PrepareEvent? || e.PlaceEvent? {
      assert s.tasks[t].leg in s.db.legs by { assert TaskOk(s, t); }
      SameRowsSameHolder(s.db, s.db.trades, s.tasks[t].leg, s.tasks[t].worker);
      if e.PrepareEvent? { PrepareKeepsRows(s, e.t, e.now); } else { PlaceKeepsRows(s, e.t, e.outcome); }
    } else {
      EndingKeepsFenced(s, e, t);
    }
  }

  ghost predicate StaysAtWork(states: seq<State>, i: nat, j: nat, t: TaskId)
    requires j < |states|
  {
    forall k :: i <= k <= j ==> t in states[k].tasks
  }

  /** Nothing a worker could still do about its claim changes a row. */
  ghost predicate Powerless(s: State, t: TaskId) {
    forall e: Event :: Enabled(s, e) && (e.FinishEvent? || e.SettleEvent? || e.UnclaimEvent?) && e.t == t ==> Apply(s, e).db == s.db
  }

  lemma NoHolderIsPowerless(s: State, t: TaskId)
    requires Inv(s) && t in s.tasks && !HoldsClaim(s.db, s.tasks[t].leg, s.tasks[t].worker)
    ensures Powerless(s, t)
  {
    hide DbOk, BrokerOk;
    assert TaskOk(s, t);
  }

  /** The same of unwinding alone. */
  ghost predicate CannotUnwind(s: State, t: TaskId) {
    forall e: Event :: Enabled(s, e) && (e.SettleEvent? || e.UnclaimEvent?) && e.t == t ==> Apply(s, e).db == s.db
  }

  ghost predicate NeverRetaken(states: seq<State>, events: seq<Event>, i: nat, j: nat, t: TaskId)
    requires j <= |events| && j < |states|
  {
    forall k :: i <= k < j ==> t in states[k].tasks && !Retakes(states[k], events[k], t)
  }

  /**
   A lost lease stays lost: from the first moment an attempt does not hold its claim, through whatever
   clients, sweeps, claims and take-overs follow, it never unwinds anything again; and until its own
   process takes the bracket over again, neither finishing nor unwinding by it changes a row.
   */
  lemma {:induction false} LostLeaseStaysLost(states: seq<State>, events: seq<Event>, i: nat, j: nat, t: TaskId)
    requires Run(states, events) && i <= j < |states| && StaysAtWork(states, i, j, t)
    requires !HoldsClaim(states[i].db, states[i].tasks[t].leg, states[i].tasks[t].worker)
    ensures states[j].tasks[t].leg == states[i].tasks[t].leg && states[j].tasks[t].worker == states[i].tasks[t].worker
    ensures CannotUnwind(states[j], t)
    ensures NeverRetaken(states, events, i, j, t) ==>
              !HoldsClaim(states[j].db, states[j].tasks[t].leg, states[j].tasks[t].worker) && Powerless(states[j], t)
  {
    hide Apply, Enabled, Disciplined, Powerless, CannotUnwind, HoldsClaim, Inv;
    RunKeepsInv(states, events, j);
    StaysWithout(states, events, i, j, t);
    WithoutClaimNoUnwinding(states[j], t);
    if NeverRetaken(states, events, i, j, t) { NoHolderIsPowerless(states[j], t); }
  }

  /** Without its claim, or acknowledged and therefore with nothing to unwind. */
  ghost predicate WithoutClaim(s: State, t: TaskId) {
    t in s.tasks && (HoldsClaim(s.db, s.tasks[t].leg, s.tasks[t].worker) ==> s.tasks[t].phase.Acknowledged?)
  }

  lemma WithoutClaimNoUnwinding(s: State, t: TaskId)
    requires Inv(s) && WithoutClaim(s, t)
    ensures CannotUnwind(s, t)
  {
    hide DbOk, BrokerOk;
    assert TaskOk(s, t);
  }

  lemma {:induction false} StaysWithout(states: seq<State>, events: seq<Event>, i: nat, j: nat, t: TaskId)
    requires Run(states, events) && i <= j < |states| && StaysAtWork(states, i, j, t)
    requires !HoldsClaim(states[i].db, states[i].tasks[t].leg, states[i].tasks[t].worker)
    ensures states[j].tasks[t].(phase := states[i].tasks[t].phase) == states[i].tasks[t] && WithoutClaim(states[j], t)
    ensures NeverRetaken(states, events, i, j, t) ==> !HoldsClaim(states[j].db, states[j].tasks[t].leg, states[j].tasks[t].worker)
    decreases j - i
  {
    hide Apply, Enabled, Disciplined, HoldsClaim, Inv, Retakes;
    if i < j {
      StaysWithout(states, events, i, j - 1, t);
      var (s, e) := (states[j - 1], events[j - 1]);
      RunKeepsInv(states, events, j - 1);
      assert Enabled(s, e) && Disciplined(s, e) && states[j] == Apply(states[j - 1], events[j - 1]);
      TaskKeepsIdentity(s, e, t);
      if s.tasks[t].phase.Acknowledged? {
        if !Retakes(s, e, t) { StepKeepsFenced(s, e, t); }
      } else {
        StepKeepsFenced(s, e, t);
      }
    }
  }

  /**
   Once another process has taken a bracket over, whoever worked on it before never unwinds anything
   again, and changes no row by finishing until its own process takes the bracket over again.
   */
  lemma TakenOverWorkerIsFenced(states: seq<State>, events: seq<Event>, i: nat, j: nat, t: TaskId, u: TaskId, g: GroupId, worker: WorkerId, now: Time)
    requires Run(states, events) && i < j < |states| && events[i] == TakeOverEvent(u, g, worker, now)
    requires TakeOver(states[i].db, g, worker, now).Some? && StaysAtWork(states, i, j, t)
    requires states[i].tasks[t].group == g && (states[i].tasks[t].worker != worker || states[i].tasks[t].phase.Refused?)
    ensures CannotUnwind(states[j], t)
    ensures NeverRetaken(states, events, i + 1, j, t) ==>
              !HoldsClaim(states[j].db, states[j].tasks[t].leg, states[j].tasks[t].worker) && Powerless(states[j], t)
  {
    hide DbOk, BrokerOk, Powerless, CannotUnwind;
    RunKeepsInv(states, events, i);
    assert TaskOk(states[i], t);
    TaskKeepsIdentity(states[i], events[i], t);
    assert Disciplined(states[i], events[i]) && states[i + 1] == Apply(states[i], events[i]);
    assert !HoldsClaim(states[i + 1].db, states[i + 1].tasks[t].leg, states[i + 1].tasks[t].worker);
    hide Apply, Enabled, Disciplined, HoldsClaim, TaskOk, TakeOver;
    LostLeaseStaysLost(states, events, i + 1, j, t);
  }

  // ---------------------------------------------------------------------------
  // Sizes and unresolved closes
  // ---------------------------------------------------------------------------

  ghost predicate ClaimedOrFired(states: seq<State>, i: nat, j: nat, g: GroupId)
    requires j < |states|
  {
    forall k :: i <= k <= j ==> g in states[k].db.groups && states[k].db.groups[g].status in {GroupPendingFire, GroupFired}
  }

  /** From its claim until it is released, and for ever once it has fired, a bracket's protected quantity does not change. */
  lemma {:induction false} SizeIsFixedOnceClaimed(states: seq<State>, events: seq<Event>, i: nat, j: nat, g: GroupId)
    requires Run(states, events) && i <= j < |states| && ClaimedOrFired(states, i, j, g)
    ensures states[j].db.groups[g].protectedQuantity == states[i].db.groups[g].protectedQuantity
    decreases j - i
  {
    hide DbOk, BrokerOk, TaskOk, Apply, Enabled, Disciplined;
    if i < j {
      SizeIsFixedOnceClaimed(states, events, i, j - 1, g);
      RunKeepsInv(states, events, j - 1);
      var s := states[j - 1];
      if s.db.groups[g].status == GroupFired {
        StepKeepsFired(s, events[j - 1], g);
      } else {
        PendingHasLeg(s.db, g);
        StepOnPending(s, events[j - 1], g);
      }
    }
  }

  /** A key is newly accepted only for the fire leg of a pending bracket. */
  lemma NewlyAcceptedIsPending(s: State, e: Event, m: LegId)
    requires Inv(s) && Enabled(s, e) && m in Apply(s, e).accepted && m !in s.accepted
    ensures m in s.db.legs && s.db.legs[m].group in s.db.groups && s.db.groups[s.db.legs[m].group].status == GroupPendingFire
    ensures Apply(s, e).db == s.db
  {
    hide DbOk, BrokerOk, TaskOk, Arm, Resize, Shrink, RetireLeg, CancelLeg, ExpireLeg, Claim, SettleNoSend, Finish, TakeOver, Prepare,
         GiveUp, Extend, Annotate, EnsureGroup, IsCanonical, IsLegOfKind, Place, PlaceEnabled;
    assert e.PlaceEvent?;
    NewlyAcceptedByPlace(s, e.t, e.outcome, m);
  }

  lemma NewlyAcceptedByPlace(s: State, t: TaskId, outcome: Outcome, m: LegId)
    requires t in s.tasks && TaskOk(s, t) && CallsPlace(s.tasks[t].phase) && PlaceEnabled(s, s.tasks[t].leg, outcome)
    requires m in Place(s, t, outcome).accepted && m !in s.accepted
    ensures m in s.db.legs && s.db.legs[m].group in s.db.groups && s.db.groups[s.db.legs[m].group].status == GroupPendingFire
    ensures Place(s, t, outcome).db == s.db
  {
    hide MarkedBy;
  }

  ghost predicate UnresolvedThroughout(states: seq<State>, i: nat, j: nat, g: GroupId)
    requires j < |states|
  {
    forall k :: i <= k <= j ==> g in states[k].db.groups && Reserves(states[k].db, states[k].db.groups[g])
  }

  /**
   One unresolved close per position: from an accepted close until the broker reports it done, no
   other close is accepted for any bracket of the same position.
   */
  lemma {:induction false} NoSecondCloseWhileUnresolved(states: seq<State>, events: seq<Event>, i: nat, j: nat, k: LegId, m: LegId)
    requires Run(states, events) && i <= j < |states| && k in states[i].accepted && k in states[i].db.legs
    requires UnresolvedThroughout(states, i, j, states[i].db.legs[k].group)
    requires m in states[j].accepted && m in states[j].db.legs && states[j].db.legs[m].group in states[j].db.groups
    requires states[j].db.groups[states[j].db.legs[m].group].scope == states[j].db.groups[states[i].db.legs[k].group].scope
    ensures m == k || m in states[i].accepted
    decreases j - i
  {
    hide DbOk, BrokerOk, TaskOk, Apply, Enabled, Disciplined, Reserves, LegsStay;
    if i < j && m !in states[j - 1].accepted {
      var s := states[j - 1];
      RunKeepsInv(states, events, j - 1);
      NewlyAcceptedIsPending(s, events[j - 1], m);
      AcceptedNeverRelabelled(states, events, i, j - 1, k);
      var (g, h) := (states[i].db.legs[k].group, s.db.legs[m].group);
      PendingReserves(s.db, h);
      OneLiveClosePerPosition(states, events, j - 1, g, h);
      AcceptedNeverRelabelled(states, events, i, j, k);
      OneAcceptedClosePerBracket(states, events, i, j, k, m);
    } else if i < j {
      RunKeepsInv(states, events, j - 1);
      AcceptedLeg(states[j - 1], m);
      StepKeepsLegs(states[j - 1], events[j - 1]);
      LegStays(states[j - 1].db, states[j].db, m);
      StepKeepsScopes(states[j - 1], events[j - 1]);
      NoSecondCloseWhileUnresolved(states, events, i, j - 1, k, m);
    }
  }

  lemma LegStays(before: Db, after: Db, l: LegId)
    requires LegsStay(before, after) && l in before.legs
    ensures l in after.legs && after.legs[l].group == before.legs[l].group
  {
  }

  lemma PendingReserves(db: Db, h: GroupId)
    requires h in db.groups && db.groups[h].status == GroupPendingFire
    ensures Reserves(db, db.groups[h])
  {
  }

  /** No transaction moves a bracket to another position or deletes it. */
  ghost predicate ScopesStay(before: Db, after: Db) {
    forall g :: g in before.groups ==> g in after.groups && after.groups[g].scope == before.groups[g].scope
  }

  lemma ArmKeepsScopes(db: Db, req: ArmRequest, canonical: Option<GroupId>, existing: Option<LegId>, newId: LegId, now: Time)
    requires Arm(db, req, canonical, existing, newId, now).Success? && IsCanonical(db, req.scope, canonical)
    ensures ScopesStay(db, Arm(db, req, canonical, existing, newId, now).value.0)
  {
  }

  lemma SizesKeepScopes(db: Db, user: UserId, leg: LegId, g: GroupId, scope: Scope, quantity: int)
    ensures ScopesStay(db, KeepResult(db, Resize(db, user, leg, quantity))) && ScopesStay(db, Keep(db, Shrink(db, g, scope, quantity)))
  {
  }

  lemma RetireKeepsScopes(db: Db, leg: LegId, status: LegStatus, reason: string)
    ensures ScopesStay(db, Keep(db, RetireLeg(db, leg, status, reason)))
  {
    hide HasActiveLeg;
  }

  lemma CancelKeepsScopes(db: Db, user: UserId, leg: LegId, now: Time)
    ensures ScopesStay(db, KeepResult(db, CancelLeg(db, user, leg))) && ScopesStay(db, Keep(db, ExpireLeg(db, leg, now)))
  {
    hide RetireLeg;
    RetireKeepsScopes(db, leg, Cancelled, "All bracket legs cancelled");
    RetireKeepsScopes(db, leg, Expired, "All bracket legs expired");
  }

  lemma SettleKeepsScopes(db: Db, leg: LegId, retired: set<LegId>, status: LegStatus, note: Note, worker: WorkerId, reason: string)
    ensures ScopesStay(db, Keep(db, SettleNoSend(db, leg, retired, status, note, worker, reason)))
  {
    hide HasActiveLeg, Restorable;
  }

  lemma ClaimKeepsScopes(db: Db, leg: LegId, worker: WorkerId, now: Time, order: OrderId)
    ensures Claim(db, leg, worker, now).Some? ==> ScopesStay(db, Claim(db, leg, worker, now).value.db)
    ensures ScopesStay(db, Keep(db, Finish(db, leg, order, worker)))
  {
    hide UnresolvedClose;
  }

  lemma LeasesKeepScopes(db: Db, g: GroupId, worker: WorkerId, time: Time, leg: LegId, text: string, trades: seq<Trade>)
    ensures ScopesStay(db, Keep(db, TakeOver(db, g, worker, time))) && ScopesStay(db, Extend(db, g, time, text))
    ensures ScopesStay(db, Annotate(db, leg, text)) && ScopesStay(db, db.(trades := trades)) && ScopesStay(db, db)
  {
  }

  /** A bracket's position never changes. */
  lemma StepKeepsScopes(s: State, e: Event)
    requires Inv(s) && Enabled(s, e)
    ensures ScopesStay(s.db, Apply(s, e).db)
  {
    hide DbOk, BrokerOk, TaskOk, ScopesStay, Arm, EnsureGroup, IsLegOfKind, IsCanonical, Claim, Prepare, RetireLeg, CancelLeg, ExpireLeg,
         SettleNoSend, Finish, Place, PlaceEnabled, GiveUp, Resize, Shrink, TakeOver, Extend, Annotate;
    LeasesKeepScopes(s.db, 0, 0, 0, 0, "", s.db.trades);
    match e {
      case ArmEvent(req, canonical, existing, newId, now) =>
        if Arm(s.db, req, canonical, existing, newId, now).Success? { ArmKeepsScopes(s.db, req, canonical, existing, newId, now); }
      case ResizeEvent(user, leg, quantity) => SizesKeepScopes(s.db, user, leg, 0, ANY_SCOPE, quantity);
      case ShrinkEvent(g, scope, held) => SizesKeepScopes(s.db, "", 0, g, scope, held);
      case CancelEvent(user, leg) => CancelKeepsScopes(s.db, user, leg, 0);
      case OrphanEvent(leg) => RetireKeepsScopes(s.db, leg, Cancelled, "All bracket legs orphaned from the broker position");
      case ExpireEvent(leg, now) => CancelKeepsScopes(s.db, "", leg, now);
      case ExtendEvent(g, until, text) => LeasesKeepScopes(s.db, g, 0, until, 0, text, s.db.trades);
      case AnnotateEvent(leg, text) => LeasesKeepScopes(s.db, 0, 0, 0, leg, text, s.db.trades);
      case TradesEvent(trades) => LeasesKeepScopes(s.db, 0, 0, 0, 0, "", trades);
      case _ => if ByWorker(e) { WorkerKeepsScopes(s, e); }
    }
  }

  lemma WorkerKeepsScopes(s: State, e: Event)
    requires Inv(s) && Enabled(s, e) && ByWorker(e)
    ensures ScopesStay(s.db, Apply(s, e).db)
  {
    hide DbOk, BrokerOk, TaskOk, ScopesStay, Claim, Prepare, SettleNoSend, Finish, Place, PlaceEnabled, TakeOver, GiveUp, Arm, Resize, Shrink,
         RetireLeg, CancelLeg, ExpireLeg, Extend, Annotate, EnsureGroup, IsCanonical, IsLegOfKind;
    LeasesKeepScopes(s.db, 0, 0, 0, 0, "", s.db.trades);
    match e {
      case ClaimEvent(_, leg, worker, now) => ClaimKeepsScopes(s.db, leg, worker, now, "");
      case UnclaimEvent(t, status) =>
        SettleKeepsScopes(s.db, s.tasks[t].leg, s.tasks[t].phase.retired, status, NoNote, s.tasks[t].worker,
                          "Bracket fire was unclaimed before broker placement");
      case SettleEvent(t, text) =>
        SettleKeepsScopes(s.db, s.tasks[t].leg, s.tasks[t].phase.retired, Failed, Message(text), s.tasks[t].worker,
                          "Bracket fire was rejected before broker acceptance");
      case FinishEvent(t) => ClaimKeepsScopes(s.db, s.tasks[t].leg, s.tasks[t].worker, 0, s.tasks[t].phase.order);
      case PlaceEvent(t, outcome) => PlaceKeepsRows(s, t, outcome);
      case TakeOverEvent(_, g, worker, now) => LeasesKeepScopes(s.db, g, worker, now, 0, "", s.db.trades);
      case PrepareEvent(t, now) => PrepareKeepsRows(s, t, now);
    }
  }
}
