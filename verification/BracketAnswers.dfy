/** When each bracket transaction is refused and with which error, and what the claim, its unwinding and its recovery write row by row. */
module BracketAnswers {
  import opened Wrappers
  import opened BracketRules
  import opened BracketInvariant
  import opened BracketReservation

  // ---------------------------------------------------------------------------
  // Requests of clients
  // ---------------------------------------------------------------------------

  /** Another bracket of the position is claimed or has fired a close the broker is not done with. */
  ghost predicate PositionTaken(db: Db, scope: Scope, exclude: GroupId) {
    exists g :: g in db.groups && g != exclude && db.groups[g].scope == scope && CloseOpen(db, db.groups[g])
  }

  ghost predicate HasLiveLeg(db: Db, g: GroupId) {
    exists l :: InGroup(db, g, l) && db.legs[l].status in {Working, PendingFire, Triggered}
  }

  /** The first obstacle to a bracket for the request, in the order in which they are looked for. */
  ghost function BracketObstacle(db: Db, req: ArmRequest, canonical: Option<GroupId>): Option<ArmError> {
    if req.requested in db.groups && db.groups[req.requested].scope.user != req.scope.user then Some(NotFound)
    else if req.requested in db.groups && db.groups[req.requested].scope != req.scope then Some(ScopeMismatch)
    else if req.requested in db.groups && db.groups[req.requested].status in {GroupPendingFire, GroupFired, GroupFailed} then Some(GroupClosedError)
    else if PositionTaken(db, req.scope, req.requested) then Some(CloseInFlight)
    else if canonical.Some? then
      if canonical.value in db.groups && db.groups[canonical.value].protectedQuantity == req.quantity then None else Some(QuantityMismatch)
    else if req.requested in db.groups && HasLiveLeg(db, req.requested) then Some(GroupClosedError)
    else None
  }

  /**
   A request is refused exactly for the first of these obstacles, or because its bracket has a leg of that
   kind which neither failed nor was cancelled; otherwise it is served.
   */
  lemma ArmAnswers(db: Db, req: ArmRequest, canonical: Option<GroupId>, existing: Option<LegId>, newId: LegId, now: Time)
    requires IsCanonical(db, req.scope, canonical)
    ensures var answer := Arm(db, req, canonical, existing, newId, now);
            match BracketObstacle(db, req, canonical)
            case Some(error) => answer == Failure(error)
            case None =>
              answer == Failure(DuplicateKind) <==>
                existing.Some? && (existing.value !in db.legs || db.legs[existing.value].status in {Working, PendingFire, Triggered, Expired})
    ensures BracketObstacle(db, req, canonical).None? && Arm(db, req, canonical, existing, newId, now).Failure? ==>
              Arm(db, req, canonical, existing, newId, now).error == DuplicateKind
  {
    hide EnsureGroup, BracketObstacle;
    EnsureAnswers(db, req, canonical, now);
    if existing.Some? && existing.value in db.legs {
      match db.legs[existing.value].status
      case Working =>
      case PendingFire =>
      case Triggered =>
      case Cancelled =>
      case Failed =>
      case Expired =>
    }
  }

  lemma EnsureAnswers(db: Db, req: ArmRequest, canonical: Option<GroupId>, now: Time)
    requires IsCanonical(db, req.scope, canonical)
    ensures var answer := EnsureGroup(db, req, canonical, now);
            match BracketObstacle(db, req, canonical)
            case Some(error) => answer == Failure(error)
            case None => answer.Success? && answer.value.0.legs == db.legs
  {
    hide UnresolvedClose, CloseOpen, HasActiveLeg, HasLiveLeg;
    UnresolvedMeans(db, req.scope, req.requested);
    LiveMeansActive(db, req.requested);
    if req.requested in db.groups && canonical.None? && db.groups[req.requested].scope == req.scope {
      assert db.groups[req.requested].status != GroupWorking;
    }
  }

  lemma LiveMeansActive(db: Db, g: GroupId)
    ensures HasLiveLeg(db, g) <==> HasActiveLeg(db, g)
  {
    if HasActiveLeg(db, g) {
      var l :| l in db.legs && db.legs[l].group == g && IsActive(db.legs[l].status);
      assert InGroup(db, g, l);
    }
  }

  /** Resizing and cancelling ask for one's own working leg of a working bracket, and say what is missing. */
  lemma LegAnswers(db: Db, user: UserId, leg: LegId, quantity: int)
    ensures var own := leg in db.legs && db.legs[leg].user == user && db.legs[leg].group in db.groups && db.groups[db.legs[leg].group].scope.user == user;
            var (resized, cancelled) := (Resize(db, user, leg, quantity), CancelLeg(db, user, leg));
            && (resized.Success? <==> own && db.groups[db.legs[leg].group].status == GroupWorking && db.legs[leg].status == Working)
            && (cancelled.Success? <==> resized.Success?)
            && (resized == Failure(NotFound) <==> !own) && (cancelled == Failure(NotFound) <==> !own)
            && (resized == Failure(GroupClosedError) <==> own && db.groups[db.legs[leg].group].status != GroupWorking)
            && (cancelled.Failure? && own ==> cancelled.error == NotWorking) && (resized.Failure? ==> resized.error in {NotFound, GroupClosedError, NotWorking})
  {
    hide HasActiveLeg;
  }

  /** A leg expires alone exactly when it is working and its time has come, that instant included; its bracket closes with its last active leg. */
  lemma ExpireAnswers(db: Db, leg: LegId, now: Time)
    requires DbOk(db)
    ensures ExpireLeg(db, leg, now).Some? <==> leg in db.legs && db.legs[leg].status.Working? && now >= db.legs[leg].expiresAt
    ensures ExpireLeg(db, leg, now).Some? ==>
              var after := ExpireLeg(db, leg, now).value;
              && after.legs == db.legs[leg := db.legs[leg].(status := Expired)] && after.trades == db.trades
              && after.groups.Keys == db.groups.Keys
              && forall g :: g in db.groups ==>
                   after.groups[g] ==
                   if g == db.legs[leg].group && !HasActiveLeg(after, g) && db.groups[g].status == GroupWorking then
                     db.groups[g].(status := GroupClosed, fireLeg := None, leaseOwner := None, leaseExpires := None, note := Some("All bracket legs expired"))
                   else db.groups[g]
  {
    hide HasActiveLeg, OneLivePerScope, GroupOk;
    if leg in db.legs { assert LegOk(db, leg); }
    if ExpireLeg(db, leg, now).Some? {
      var marked := db.(legs := db.legs[leg := db.legs[leg].(status := Expired)]);
      var after := ExpireLeg(db, leg, now).value;
      assert after == CloseIfEmpty(marked, db.legs[leg].group, "All bracket legs expired");
      SameLegsSameActivity(marked, after, db.legs[leg].group);
    }
  }

  lemma SameLegsSameActivity(a: Db, b: Db, g: GroupId)
    requires a.legs == b.legs
    ensures HasActiveLeg(a, g) <==> HasActiveLeg(b, g)
  {
  }

  /**
   What the guarded writes look at, in a database of any shape: the owner and environment of leg and
   bracket, the statuses, the claim, and for siblings the mark of this fire on a cancelled row of the owner.
   */
  lemma GuardsMean(db: Db, leg: LegId, worker: WorkerId, now: Time, retired: set<LegId>, status: LegStatus, note: Note, reason: string, order: OrderId)
    ensures Claim(db, leg, worker, now).Some? <==>
              leg in db.legs && db.legs[leg].group in db.groups
              && var (row, group) := (db.legs[leg], db.groups[db.legs[leg].group]);
                 (group.scope.user, group.scope.mode) == (row.user, row.mode) && row.status.Working? && group.status.GroupWorking?
                 && !PositionTaken(db, group.scope, row.group)
    ensures Claim(db, leg, worker, now).Some? ==>
              var claim := Claim(db, leg, worker, now).value; var row := db.legs[leg];
              && (forall l :: l in claim.retired <==>
                    l != leg && l in db.legs && db.legs[l].status.Working?
                    && (db.legs[l].group, db.legs[l].user, db.legs[l].mode) == (row.group, row.user, row.mode))
              && claim.db.legs.Keys == db.legs.Keys && claim.db.legs[leg] == row.(status := PendingFire, triggeredAt := Some(now), note := NoNote)
              && (forall l :: l in claim.retired ==> claim.db.legs[l] == db.legs[l].(status := Cancelled, triggeredAt := None, note := RetiredBy(leg)))
    ensures SettleNoSend(db, leg, retired, status, note, worker, reason).Some? <==>
              Holder(db, leg, worker) && (db.legs[leg].status.PendingFire? || db.legs[leg].status.Triggered?)
              && forall l :: l in retired ==>
                   l in db.legs && db.legs[l].status.Cancelled? && db.legs[l].note == RetiredBy(leg)
                   && (db.legs[l].group, db.legs[l].user) == (db.legs[leg].group, db.legs[leg].user)
    ensures Finish(db, leg, order, worker).Some? <==>
              Holder(db, leg, worker) && (db.legs[leg].status.PendingFire? || db.legs[leg].status.Triggered?)
    ensures Retirable(db, leg) <==>
              leg in db.legs && db.legs[leg].status.Working? && db.legs[leg].group in db.groups
              && db.groups[db.legs[leg].group].scope.user == db.legs[leg].user
  {
    hide UnresolvedClose, CloseOpen, CloseIfEmpty;
    if leg in db.legs && db.legs[leg].group in db.groups {
      UnresolvedMeans(db, db.groups[db.legs[leg].group].scope, db.legs[leg].group);
    }
  }

  /** And what unwinding and finishing write there, row by row; a fire leg that is restored itself counts as a sibling. */
  lemma WritesMean(db: Db, leg: LegId, worker: WorkerId, retired: set<LegId>, status: LegStatus, note: Note, reason: string, order: OrderId)
    ensures SettleNoSend(db, leg, retired, status, note, worker, reason).Some? ==>
              var after := SettleNoSend(db, leg, retired, status, note, worker, reason).value; var g := db.legs[leg].group;
              && after.trades == db.trades && after.legs.Keys == db.legs.Keys && after.groups.Keys == db.groups.Keys
              && (forall l :: l in db.legs && l != leg ==>
                    after.legs[l] == if l in retired then db.legs[l].(status := Working, triggeredAt := None, note := NoNote) else db.legs[l])
              && (leg !in retired ==>
                    after.legs[leg] == db.legs[leg].(status := status, note := note,
                                                     triggeredAt := if status.Working? then None else db.legs[leg].triggeredAt))
              && (forall h :: h in db.groups && h != g ==> after.groups[h] == db.groups[h])
              && after.groups[g] ==
                   if HasActiveLeg(after, g) then
                     db.groups[g].(status := GroupWorking, fireLeg := None, leaseOwner := None, leaseExpires := None,
                                   note := match note case Message(text) => Some(text) case _ => None)
                   else
                     db.groups[g].(status := GroupClosed, fireLeg := None, leaseOwner := None, leaseExpires := None, note := Some(reason))
    ensures Finish(db, leg, order, worker).Some? ==>
              var after := Finish(db, leg, order, worker).value; var g := db.legs[leg].group;
              && after.trades == db.trades && after.legs.Keys == db.legs.Keys
              && after.groups == db.groups[g := db.groups[g].(status := GroupFired, leaseOwner := None, leaseExpires := None, note := None)]
              && after.legs[leg] == db.legs[leg].(status := Triggered, brokerOrder := Some(order))
              && forall l :: l in db.legs && l != leg ==>
                   after.legs[l] ==
                   if (db.legs[l].group, db.legs[l].user) == (g, db.legs[leg].user)
                      && (db.legs[l].status.Working? || (db.legs[l].status.Cancelled? && db.legs[l].note == RetiredBy(leg)))
                   then db.legs[l].(status := Cancelled, note := NoNote) else db.legs[l]
  {
    hide HasActiveLeg;
    if SettleNoSend(db, leg, retired, status, note, worker, reason).Some? {
      SameLegsSameActivity(Released(db, leg, retired, status, note), SettleNoSend(db, leg, retired, status, note, worker, reason).value, db.legs[leg].group);
    }
  }

  /** Scaling down asks for a working bracket of this very account that is larger than what is held; it sets its size and its working legs'. */
  lemma ShrinkMeans(db: Db, g: GroupId, scope: Scope, held: int)
    ensures Shrink(db, g, scope, held).Some? <==>
              g in db.groups && db.groups[g].status.GroupWorking? && db.groups[g].protectedQuantity > held
              && var own := db.groups[g].scope; (own.user, own.provider, own.mode, own.account) == (scope.user, scope.provider, scope.mode, scope.account)
    ensures Shrink(db, g, scope, held).Some? ==>
              var after := Shrink(db, g, scope, held).value;
              && after.groups == db.groups[g := db.groups[g].(protectedQuantity := held)] && after.trades == db.trades
              && after.legs.Keys == db.legs.Keys
              && forall l :: l in db.legs ==>
                   after.legs[l] == if InGroup(db, g, l) && db.legs[l].status == Working then db.legs[l].(quantity := held) else db.legs[l]
  {
  }

  // ---------------------------------------------------------------------------
  // The claim
  // ---------------------------------------------------------------------------

  /**
   A leg is claimed exactly when it and its bracket are working and no other bracket of the position has
   an open close. The bracket is then pending under a lease of thirty seconds, the leg with it, and every
   other working leg of the bracket is cancelled with the mark of this fire; nothing else changes.
   */
  lemma ClaimMeans(db: Db, leg: LegId, worker: WorkerId, now: Time)
    requires DbOk(db)
    ensures Claim(db, leg, worker, now).Some? <==>
              leg in db.legs && db.legs[leg].status == Working && db.groups[db.legs[leg].group].status == GroupWorking
              && !PositionTaken(db, db.groups[db.legs[leg].group].scope, db.legs[leg].group)
    ensures Claim(db, leg, worker, now).Some? ==>
              var claim := Claim(db, leg, worker, now).value; var g := db.legs[leg].group;
              && (forall l :: l in claim.retired <==> l != leg && InGroup(db, g, l) && db.legs[l].status == Working)
              && claim.quantity == db.groups[g].protectedQuantity && claim.db.trades == db.trades
              && claim.db.groups == db.groups[g :=
                   Group(db.groups[g].scope, GroupPendingFire, db.groups[g].protectedQuantity, Some(leg), Some(worker), Some(now + 30_000),
                         db.groups[g].createdAt, None)]
              && claim.db.legs.Keys == db.legs.Keys
              && forall l :: l in db.legs ==>
                   claim.db.legs[l] ==
                   if l == leg then db.legs[l].(status := PendingFire, triggeredAt := Some(now))
                   else if l in claim.retired then db.legs[l].(status := Cancelled, note := RetiredBy(leg))
                   else db.legs[l]
  {
    hide UnresolvedClose, CloseOpen, OneLivePerScope, GroupOk;
    if leg in db.legs {
      assert LegOk(db, leg);
      var g := db.legs[leg].group;
      UnresolvedMeans(db, db.groups[g].scope, g);
      SiblingsMean(db, leg);
    }
  }

  lemma SiblingsMean(db: Db, leg: LegId)
    requires leg in db.legs && forall l :: l in db.legs ==> LegOk(db, l)
    ensures forall l :: l in WorkingSiblings(db, leg) <==> l != leg && InGroup(db, db.legs[leg].group, l) && db.legs[l].status == Working
    ensures forall l :: l in WorkingSiblings(db, leg) ==> db.legs[l].triggeredAt.None?
  {
    forall l | l in db.legs ensures LegOk(db, l) { }
    assert LegOk(db, leg);
  }

  // ---------------------------------------------------------------------------
  // Unwinding
  // ---------------------------------------------------------------------------

  /** The bracket is pending on this leg, and this process holds its lease. */
  predicate Holder(db: Db, leg: LegId, worker: WorkerId) {
    && leg in db.legs && db.legs[leg].group in db.groups
    && var group := db.groups[db.legs[leg].group];
    && group.scope.user == db.legs[leg].user
    && (group.status, group.fireLeg, group.leaseOwner) == (GroupPendingFire, Some(leg), Some(worker))
  }

  /**
   A claim is unwound exactly by its holder, while the leg is still out of play and every sibling named
   still carries the mark of this fire. The leg then has the status and note given; the siblings work
   again with no mark; the bracket is free of the claim, working if a leg of it is still in play and closed
   with the reason otherwise.
   */
  lemma SettleMeans(db: Db, leg: LegId, retired: set<LegId>, status: LegStatus, note: Note, worker: WorkerId, reason: string)
    requires DbOk(db) && leg !in retired
    ensures SettleNoSend(db, leg, retired, status, note, worker, reason).Some? <==>
              Holder(db, leg, worker) && forall l :: l in retired ==> InGroup(db, db.legs[leg].group, l) && db.legs[l].note == RetiredBy(leg)
    ensures SettleNoSend(db, leg, retired, status, note, worker, reason).Some? ==>
              var after := SettleNoSend(db, leg, retired, status, note, worker, reason).value; var g := db.legs[leg].group;
              && after.trades == db.trades && after.legs.Keys == db.legs.Keys && after.groups.Keys == db.groups.Keys
              && (forall l :: l in db.legs ==>
                    after.legs[l] ==
                    if l == leg then db.legs[l].(status := status, note := note, triggeredAt := if status == Working then None else db.legs[l].triggeredAt)
                    else if l in retired then db.legs[l].(status := Working, triggeredAt := None, note := NoNote)
                    else db.legs[l])
              && (forall h :: h in db.groups && h != g ==> after.groups[h] == db.groups[h])
              && after.groups[g] ==
                   if status in {Working, PendingFire, Triggered} || retired != {} then
                     db.groups[g].(status := GroupWorking, fireLeg := None, leaseOwner := None, leaseExpires := None,
                                   note := if note.Message? then Some(note.text) else None)
                   else
                     db.groups[g].(status := GroupClosed, fireLeg := None, leaseOwner := None, leaseExpires := None, note := Some(reason))
  {
    hide DbOk, HasActiveLeg, SettleNoSend;
    GuardsMean(db, leg, worker, 0, retired, status, note, reason, "");
    WritesMean(db, leg, worker, retired, status, note, reason, "");
    if HoldsClaim(db, leg, worker) { PendingLegs(db, leg, worker); }
    if SettleNoSend(db, leg, retired, status, note, worker, reason).Some? {
      SettledActive(db, SettleNoSend(db, leg, retired, status, note, worker, reason).value, leg, retired, status);
    }
  }

  lemma SettledActive(db: Db, after: Db, leg: LegId, retired: set<LegId>, status: LegStatus)
    requires leg in db.legs && leg !in retired && after.legs.Keys == db.legs.Keys
    requires after.legs[leg].group == db.legs[leg].group && after.legs[leg].status == status
    requires forall l :: l in retired ==> InGroup(after, db.legs[leg].group, l) && after.legs[l].status == Working
    requires forall l :: l in db.legs && l != leg && l !in retired ==> after.legs[l] == db.legs[l]
    requires forall l :: l != leg && InGroup(db, db.legs[leg].group, l) ==> !IsActive(db.legs[l].status)
    ensures HasActiveLeg(after, db.legs[leg].group) <==> IsActive(status) || retired != {}
  {
    if retired != {} {
      var l :| l in retired;
      assert InGroup(after, db.legs[leg].group, l);
    }
    forall l | l in after.legs && l != leg && after.legs[l].group == db.legs[leg].group
      ensures IsActive(after.legs[l].status) <==> l in retired
    {
      assert l !in retired ==> InGroup(db, db.legs[leg].group, l);
    }
  }

  lemma PendingLegs(db: Db, leg: LegId, worker: WorkerId)
    requires DbOk(db) && HoldsClaim(db, leg, worker)
    ensures db.legs[leg].status == PendingFire
    ensures forall l :: l != leg && InGroup(db, db.legs[leg].group, l) ==> !IsActive(db.legs[l].status)
    ensures forall l :: InGroup(db, db.legs[leg].group, l) ==>
              (db.legs[l].note == RetiredBy(leg) ==> db.legs[l].status == Cancelled) && db.legs[l].user == db.legs[leg].user
  {
    hide OneLivePerScope, WorkingShape, FiredShape, ClosedShape;
    var g := db.legs[leg].group;
    assert GroupOk(db, g) && LegOk(db, leg);
    forall l | InGroup(db, g, l)
      ensures (db.legs[l].note == RetiredBy(leg) ==> db.legs[l].status == Cancelled) && db.legs[l].user == db.legs[leg].user
    {
      assert LegOk(db, l);
    }
  }

  /** A fire is finished exactly by the holder of its claim. */
  lemma FinishAnswers(db: Db, leg: LegId, order: OrderId, worker: WorkerId)
    requires DbOk(db)
    ensures Finish(db, leg, order, worker).Some? <==> Holder(db, leg, worker)
  {
    if HoldsClaim(db, leg, worker) { PendingLegs(db, leg, worker); }
  }

  // ---------------------------------------------------------------------------
  // Recovery
  // ---------------------------------------------------------------------------

  /**
   Recovery can go on exactly with a leg of the bracket that is working or out for the fire. It takes a
   working leg out of play, cancels the working siblings with the mark of this fire, names all marked
   siblings, and touches no bracket.
   */
  lemma PrepareMeans(db: Db, leg: LegId, g: GroupId, now: Time)
    requires forall l :: l in db.legs ==> LegOk(db, l)
    ensures Prepare(db, leg, g, now).Some? <==> InGroup(db, g, leg) && db.legs[leg].status in {Working, PendingFire, Triggered}
    ensures Prepare(db, leg, g, now).Some? ==>
              var prepared := Prepare(db, leg, g, now).value; var after := prepared.db;
              && after.groups == db.groups && after.trades == db.trades && after.legs.Keys == db.legs.Keys
              && (forall l :: l in prepared.siblings <==> l != leg && InGroup(after, g, l) && after.legs[l].note == RetiredBy(leg))
              && (forall l :: l in db.legs ==>
                    after.legs[l] ==
                    if l == leg && db.legs[l].status == Working then db.legs[l].(status := PendingFire, triggeredAt := Some(now))
                    else if l != leg && InGroup(db, g, l) && db.legs[l].status == Working then db.legs[l].(status := Cancelled, note := RetiredBy(leg))
                    else db.legs[l])
  {
    if Prepare(db, leg, g, now).Some? {
      hide WorkingSiblings;
      SiblingsMean(db, leg);
      forall l | l in db.legs ensures LegOk(db, l) { }
      assert LegOk(db, leg);
    }
  }

  /** The same in a database of any shape: owner and environment of the siblings count, and a working leg loses any old mark. */
  lemma PrepareWrites(db: Db, leg: LegId, g: GroupId, now: Time)
    requires Prepare(db, leg, g, now).Some?
    ensures var prepared := Prepare(db, leg, g, now).value; var row := db.legs[leg];
            && prepared.db.legs.Keys == db.legs.Keys
            && (forall l :: l in prepared.siblings <==>
                  l != leg && l in db.legs && (db.legs[l].group, db.legs[l].user, db.legs[l].mode) == (g, row.user, row.mode)
                  && (db.legs[l].status.Working? || (db.legs[l].status.Cancelled? && db.legs[l].note == RetiredBy(leg))))
            && prepared.db.legs[leg] == (if row.status.Working? then row.(status := PendingFire, triggeredAt := Some(now), note := NoNote) else row)
            && forall l :: l in db.legs && l != leg ==>
                 prepared.db.legs[l] ==
                 if l in prepared.siblings && db.legs[l].status.Working? then db.legs[l].(status := Cancelled, triggeredAt := None, note := RetiredBy(leg))
                 else db.legs[l]
  {
  }

  /** Giving up needs the own lease; waiting on keeps a pending bracket pending; a note goes on a leg that is out for the fire. */
  lemma RecoveryNotes(db: Db, g: GroupId, leg: LegId, worker: WorkerId, until: Time, text: string)
    ensures GiveUp(db, g, worker) ==
              if g in db.groups && db.groups[g].leaseOwner == Some(worker)
              then db.(groups := db.groups[g := db.groups[g].(status := GroupFailed, note := Some("Fire leg cannot be recovered safely"))]) else db
    ensures Extend(db, g, until, text) ==
              if g in db.groups && db.groups[g].status.GroupPendingFire?
              then db.(groups := db.groups[g := db.groups[g].(leaseExpires := Some(until), note := Some(text))]) else db
    ensures Annotate(db, leg, text) ==
              if leg in db.legs && (db.legs[leg].status.PendingFire? || db.legs[leg].status.Triggered?)
              then db.(legs := db.legs[leg := db.legs[leg].(note := Message(text))]) else db
  {
  }
}
