/**
 What every transaction of BracketRules keeps true of the rows: the shape of each group in
 each status, the sizes of its legs, and at most one live close path per position.
 */
module BracketInvariant {
  import opened Wrappers
  import opened BracketRules

  // ---------------------------------------------------------------------------
  // Shapes
  // ---------------------------------------------------------------------------

  /** A leg belongs to its group's owner, and carries the protected size whenever it could still be sent. */
  ghost predicate LegOk(db: Db, l: LegId)
    requires l in db.legs
  {
    var leg := db.legs[l];
    && leg.group in db.groups
    && leg.user == db.groups[leg.group].scope.user
    && leg.mode == db.groups[leg.group].scope.mode
    && (leg.note.RetiredBy? ==> leg.status == Cancelled)
    && (leg.status != Triggered ==> leg.brokerOrder.None?)
    && (leg.status == Working ==> leg.triggeredAt.None? && leg.note.NoNote?)
    && (IsActive(leg.status) || leg.note.RetiredBy? ==> leg.quantity == db.groups[leg.group].protectedQuantity)
  }

  ghost predicate Unleased(group: Group) {
    group.leaseOwner.None? && group.leaseExpires.None?
  }

  /** Armed: something to fire, nothing fired, nothing retired by a fire, nobody's lease. */
  ghost predicate WorkingShape(db: Db, g: GroupId)
    requires g in db.groups
  {
    && db.groups[g].fireLeg.None? && Unleased(db.groups[g])
    && (exists l :: InGroup(db, g, l) && db.legs[l].status == Working)
    && (forall l :: InGroup(db, g, l) ==>
          db.legs[l].status != PendingFire && db.legs[l].status != Triggered && !db.legs[l].note.RetiredBy?)
  }

  /** Claimed: the fire leg is the only active one, and every retirement marker is its own. */
  ghost predicate PendingShape(db: Db, g: GroupId)
    requires g in db.groups
  {
    var group := db.groups[g];
    && group.fireLeg.Some? && group.leaseOwner.Some? && group.leaseExpires.Some?
    && InGroup(db, g, group.fireLeg.value) && db.legs[group.fireLeg.value].status == PendingFire
    && (forall l :: InGroup(db, g, l) && l != group.fireLeg.value ==>
          !IsActive(db.legs[l].status) &&
          (db.legs[l].note.RetiredBy? ==> db.legs[l].note == RetiredBy(group.fireLeg.value)))
  }

  /** Fired: the fire leg carries its broker order and nothing else can fire. */
  ghost predicate FiredShape(db: Db, g: GroupId)
    requires g in db.groups
  {
    var group := db.groups[g];
    && group.fireLeg.Some? && Unleased(group)
    && InGroup(db, g, group.fireLeg.value) && db.legs[group.fireLeg.value].status == Triggered
    && db.legs[group.fireLeg.value].brokerOrder.Some?
    && (forall l :: InGroup(db, g, l) && l != group.fireLeg.value ==>
          !IsActive(db.legs[l].status) && !db.legs[l].note.RetiredBy?)
  }

  ghost predicate ClosedShape(db: Db, g: GroupId)
    requires g in db.groups
  {
    && db.groups[g].fireLeg.None? && Unleased(db.groups[g])
    && (forall l :: InGroup(db, g, l) ==> !IsActive(db.legs[l].status) && !db.legs[l].note.RetiredBy?)
  }

  ghost predicate GroupOk(db: Db, g: GroupId)
    requires g in db.groups
  {
    match db.groups[g].status
    case GroupWorking => WorkingShape(db, g)
    case GroupPendingFire => PendingShape(db, g)
    case GroupFired => FiredShape(db, g)
    case GroupClosed => ClosedShape(db, g)
    case GroupFailed => false
  }

  /** A group that may still send a close, or has sent one whose outcome is open. */
  predicate IsLive(db: Db, g: GroupId)
    requires g in db.groups
  {
    db.groups[g].status == GroupWorking || Reserves(db, db.groups[g])
  }

  ghost predicate OneLivePerScope(db: Db) {
    forall g, h :: g in db.groups && h in db.groups && g != h && db.groups[g].scope == db.groups[h].scope ==>
                     !(IsLive(db, g) && IsLive(db, h))
  }

  ghost predicate DbOk(db: Db) {
    && (forall l :: l in db.legs ==> LegOk(db, l))
    && (forall g :: g in db.groups ==> GroupOk(db, g))
    && OneLivePerScope(db)
  }

  // ---------------------------------------------------------------------------
  // Locality: a transaction on one group leaves every other group alone
  // ---------------------------------------------------------------------------

  /** Everything outside group g is the same in both databases, and so is g's identity. */
  ghost predicate OnlyGroupChanged(before: Db, after: Db, g: GroupId) {
    && after.trades == before.trades
    && after.legs.Keys >= before.legs.Keys
    && after.groups.Keys >= before.groups.Keys
    && (forall h :: h in after.groups && h != g ==> h in before.groups && after.groups[h] == before.groups[h])
    && (forall l :: l in before.legs ==> after.legs[l].group == before.legs[l].group)
    && (forall l :: l in after.legs && after.legs[l].group != g ==> l in before.legs && after.legs[l] == before.legs[l])
    && (g in before.groups ==> g in after.groups && after.groups[g].scope == before.groups[g].scope)
  }

  lemma OtherGroupsKeepShape(before: Db, after: Db, g: GroupId, h: GroupId)
    requires DbOk(before) && OnlyGroupChanged(before, after, g)
    requires h in after.groups && h != g
    ensures GroupOk(after, h)
    ensures IsLive(after, h) == IsLive(before, h)
  {
    assert GroupOk(before, h);
    assert forall l :: InGroup(after, h, l) <==> InGroup(before, h, l);
    assert forall l :: InGroup(before, h, l) ==> after.legs[l] == before.legs[l];
    if before.groups[h].status == GroupWorking {
      var l :| InGroup(before, h, l) && before.legs[l].status == Working;
      assert InGroup(after, h, l);
    } else if before.groups[h].status == GroupFired {
      assert InGroup(before, h, before.groups[h].fireLeg.value);
    }
  }

  /**
   The one obligation left for a transaction on group g: its own legs and shape, and that it
   does not become live beside another live group of its scope.
   */
  lemma GroupChangeKeepsDb(before: Db, after: Db, g: GroupId)
    requires DbOk(before) && OnlyGroupChanged(before, after, g)
    requires g in after.groups && GroupOk(after, g)
    requires forall l :: InGroup(after, g, l) ==> LegOk(after, l)
    requires IsLive(after, g) ==>
               (g in before.groups && IsLive(before, g)) ||
               (forall h :: h in before.groups && h != g && before.groups[h].scope == after.groups[g].scope ==> !IsLive(before, h))
    ensures DbOk(after)
  {
    forall h | h in after.groups && h != g
      ensures GroupOk(after, h) && IsLive(after, h) == IsLive(before, h)
    {
      OtherGroupsKeepShape(before, after, g, h);
    }
    forall l | l in after.legs
      ensures LegOk(after, l)
    {
      if after.legs[l].group != g {
        assert LegOk(before, l);
      }
    }
  }

  // ---------------------------------------------------------------------------
  // Each transaction keeps the rows well formed
  // ---------------------------------------------------------------------------

  /** Before its leg is written, the group a create settles on may take one, at the requested size. */
  lemma EnsuredGroupAcceptsLeg(db: Db, req: ArmRequest, canonical: Option<GroupId>, now: Time)
    requires DbOk(db) && IsCanonical(db, req.scope, canonical)
    requires EnsureGroup(db, req, canonical, now).Success?
    ensures var ensured := EnsureGroup(db, req, canonical, now).value;
            var (mid, g) := (ensured.0, ensured.1);
            && g in mid.groups && mid.groups[g].status == GroupWorking
            && mid.groups[g].scope == req.scope && mid.groups[g].protectedQuantity == req.quantity
            && mid.groups[g].fireLeg.None? && Unleased(mid.groups[g])
            && mid.legs == db.legs && mid.trades == db.trades && mid.groups.Keys == db.groups.Keys + {g}
            && (forall h :: h in db.groups && h != g ==> mid.groups[h] == db.groups[h])
            && (g in db.groups ==> db.groups[g].scope == req.scope)
            && (forall l :: InGroup(db, g, l) ==>
                  LegOk(mid, l) && db.legs[l].status != PendingFire && db.legs[l].status != Triggered && !db.legs[l].note.RetiredBy?)
            && ((g in db.groups && IsLive(db, g)) ||
                (forall h :: h in db.groups && h != g && db.groups[h].scope == req.scope ==> !IsLive(db, h)))
  {
    var ensured := EnsureGroup(db, req, canonical, now).value;
    var (mid, g) := (ensured.0, ensured.1);
    if g in db.groups {
      assert GroupOk(db, g);
    }
    forall l | InGroup(db, g, l)
      ensures LegOk(mid, l) && db.legs[l].status != PendingFire && db.legs[l].status != Triggered && !db.legs[l].note.RetiredBy?
    {
      assert LegOk(db, l);
    }
    if canonical.None? {
      forall h | h in db.groups && h != g && db.groups[h].scope == req.scope
        ensures !IsLive(db, h)
      {
        if Reserves(db, db.groups[h]) { assert UnresolvedClose(db, req.scope, req.requested); }
      }
    }
  }

  lemma ArmKeepsDb(db: Db, req: ArmRequest, canonical: Option<GroupId>, existing: Option<LegId>, newId: LegId, now: Time)
    requires DbOk(db) && IsCanonical(db, req.scope, canonical) && newId !in db.legs
    requires EnsureGroup(db, req, canonical, now).Success?
    requires var ensured := EnsureGroup(db, req, canonical, now).value; IsLegOfKind(ensured.0, ensured.1, req.kind, existing)
    requires Arm(db, req, canonical, existing, newId, now).Success?
    ensures var armed := Arm(db, req, canonical, existing, newId, now).value;
            armed.1 in armed.0.legs && DbOk(armed.0) && OnlyGroupChanged(db, armed.0, armed.0.legs[armed.1].group)
  {
    hide DbOk, LegOk, EnsureGroup, IsCanonical, OnlyGroupChanged, IsLive;
    EnsuredGroupAcceptsLeg(db, req, canonical, now);
    var ensured := EnsureGroup(db, req, canonical, now).value;
    var armed := Arm(db, req, canonical, existing, newId, now).value;
    ArmedGroupKeepsDb(db, ensured.0, req, ensured.1, armed.1);
  }

  /** A fresh leg in a working group of its own position and size. */
  lemma ArmedGroupKeepsDb(db: Db, mid: Db, req: ArmRequest, g: GroupId, leg: LegId)
    requires DbOk(db) && mid.legs == db.legs && mid.trades == db.trades && mid.groups.Keys == db.groups.Keys + {g}
    requires g in mid.groups && mid.groups[g].status == GroupWorking && mid.groups[g].scope == req.scope
    requires mid.groups[g].protectedQuantity == req.quantity && mid.groups[g].fireLeg.None? && Unleased(mid.groups[g])
    requires (forall h :: h in db.groups && h != g ==> mid.groups[h] == db.groups[h]) && (g in db.groups ==> db.groups[g].scope == req.scope)
    requires forall l :: InGroup(db, g, l) ==>
               LegOk(mid, l) && db.legs[l].status != PendingFire && db.legs[l].status != Triggered && !db.legs[l].note.RetiredBy?
    requires (g in db.groups && IsLive(db, g)) ||
             (forall h :: h in db.groups && h != g && db.groups[h].scope == req.scope ==> !IsLive(db, h))
    requires leg in db.legs ==> db.legs[leg].group == g
    ensures var after := mid.(legs := mid.legs[leg := ArmedLeg(req, g)]);
            DbOk(after) && OnlyGroupChanged(db, after, g)
  {
    hide GroupOk, OneLivePerScope, IsLive;
    var after := mid.(legs := mid.legs[leg := ArmedLeg(req, g)]);
    assert InGroup(after, g, leg);
    forall l | InGroup(after, g, l)
      ensures LegOk(after, l)
      ensures after.legs[l].status != PendingFire && after.legs[l].status != Triggered && !after.legs[l].note.RetiredBy?
    {
      if l != leg { assert InGroup(db, g, l) && LegOk(mid, l); }
    }
    ArmedGroupOk(after, g, leg);
    GroupChangeKeepsDb(db, after, g);
  }

  lemma ArmedGroupOk(db: Db, g: GroupId, leg: LegId)
    requires g in db.groups && db.groups[g].status == GroupWorking && db.groups[g].fireLeg.None? && Unleased(db.groups[g])
    requires InGroup(db, g, leg) && db.legs[leg].status == Working
    requires forall l :: InGroup(db, g, l) ==>
               db.legs[l].status != PendingFire && db.legs[l].status != Triggered && !db.legs[l].note.RetiredBy?
    ensures GroupOk(db, g)
  {
    assert WorkingShape(db, g);
  }

  lemma ResizeKeepsDb(db: Db, user: UserId, leg: LegId, quantity: int)
    requires DbOk(db) && Resize(db, user, leg, quantity).Success?
    ensures var after := Resize(db, user, leg, quantity).value;
            DbOk(after) && OnlyGroupChanged(db, after, db.legs[leg].group)
  {
    QuantityChangeKeepsDb(db, db.legs[leg].group, quantity);
  }

  lemma ShrinkKeepsDb(db: Db, g: GroupId, scope: Scope, held: int)
    requires DbOk(db) && Shrink(db, g, scope, held).Some?
    ensures DbOk(Shrink(db, g, scope, held).value) && OnlyGroupChanged(db, Shrink(db, g, scope, held).value, g)
  {
    QuantityChangeKeepsDb(db, g, held);
  }

  lemma QuantityChangeKeepsDb(db: Db, g: GroupId, quantity: int)
    requires DbOk(db) && g in db.groups && db.groups[g].status == GroupWorking
    ensures var after := db.(groups := db.groups[g := db.groups[g].(protectedQuantity := quantity)],
                             legs := WithQuantity(db.legs, WorkingLegs(db, g), quantity));
            DbOk(after) && OnlyGroupChanged(db, after, g)
  {
    hide GroupOk, OneLivePerScope;
    var after := db.(groups := db.groups[g := db.groups[g].(protectedQuantity := quantity)],
                     legs := WithQuantity(db.legs, WorkingLegs(db, g), quantity));
    WorkingMeans(db, g);
    var w :| InGroup(db, g, w) && db.legs[w].status == Working;
    assert InGroup(after, g, w) && after.legs[w].status == Working;
    forall l | InGroup(after, g, l)
      ensures LegOk(after, l)
      ensures after.legs[l].status == db.legs[l].status && after.legs[l].note == db.legs[l].note
    {
      assert LegOk(db, l) && InGroup(db, g, l);
    }
    ArmedGroupOk(after, g, w);
    GroupChangeKeepsDb(db, after, g);
  }

  lemma CloseIfEmptyKeepsLeg(db: Db, g: GroupId, reason: string, l: LegId)
    requires l in db.legs && LegOk(db, l)
    ensures l in CloseIfEmpty(db, g, reason).legs && LegOk(CloseIfEmpty(db, g, reason), l)
  {
  }

  /** Once nothing in a released group is pending or marked, closing it when empty gives it a shape. */
  lemma CloseIfEmptyGivesShape(db: Db, g: GroupId, reason: string)
    requires g in db.groups && db.groups[g].status == GroupWorking
    requires db.groups[g].fireLeg.None? && Unleased(db.groups[g])
    requires forall l :: InGroup(db, g, l) ==>
               db.legs[l].status != PendingFire && db.legs[l].status != Triggered && !db.legs[l].note.RetiredBy?
    ensures var after := CloseIfEmpty(db, g, reason);
            && after.legs == db.legs && after.trades == db.trades && after.groups.Keys == db.groups.Keys
            && GroupOk(after, g)
            && after.groups[g].scope == db.groups[g].scope
            && after.groups[g].protectedQuantity == db.groups[g].protectedQuantity
            && (forall h :: h in db.groups && h != g ==> after.groups[h] == db.groups[h])
  {
    var after := CloseIfEmpty(db, g, reason);
    assert forall l :: InGroup(after, g, l) <==> InGroup(db, g, l);
    if HasActiveLeg(db, g) {
      var l :| l in db.legs && db.legs[l].group == g && IsActive(db.legs[l].status);
      assert InGroup(db, g, l);
    } else {
      forall l | InGroup(db, g, l) ensures !IsActive(db.legs[l].status) { }
    }
  }

  lemma RetireLegKeepsDb(db: Db, leg: LegId, status: LegStatus, reason: string)
    requires DbOk(db) && RetireLeg(db, leg, status, reason).Some? && status in {Cancelled, Expired}
    ensures var after := RetireLeg(db, leg, status, reason).value;
            DbOk(after) && OnlyGroupChanged(db, after, db.legs[leg].group)
  {
    var row := db.legs[leg];
    var g := row.group;
    assert InGroup(db, g, leg) && LegOk(db, leg);
    assert db.groups[g].status == GroupWorking && WorkingShape(db, g) by { assert GroupOk(db, g); }
    hide GroupOk, OneLivePerScope, HasActiveLeg, RetireLeg, OnlyGroupChanged;
    RetiredWorkingLegKeepsDb(db, leg, status, reason);
  }

  lemma RetiredWorkingLegKeepsDb(db: Db, leg: LegId, status: LegStatus, reason: string)
    requires DbOk(db) && RetireLeg(db, leg, status, reason).Some? && status in {Cancelled, Expired}
    requires db.legs[leg].group in db.groups && db.groups[db.legs[leg].group].status == GroupWorking && WorkingShape(db, db.legs[leg].group)
    ensures var after := RetireLeg(db, leg, status, reason).value;
            DbOk(after) && OnlyGroupChanged(db, after, db.legs[leg].group)
  {
    hide GroupOk, OneLivePerScope, HasActiveLeg;
    var row := db.legs[leg];
    var g := row.group;
    assert InGroup(db, g, leg) && LegOk(db, leg);
    var mid := db.(legs := db.legs[leg := row.(status := status, note := if status == Cancelled then NoNote else row.note)]);
    var after := CloseIfEmpty(mid, g, reason);
    assert after == RetireLeg(db, leg, status, reason).value;
    forall l | InGroup(mid, g, l)
      ensures LegOk(mid, l)
      ensures mid.legs[l].status != PendingFire && mid.legs[l].status != Triggered && !mid.legs[l].note.RetiredBy?
    {
      assert LegOk(db, l) && InGroup(db, g, l);
    }
    CloseIfEmptyGivesShape(mid, g, reason);
    forall l | InGroup(after, g, l) ensures LegOk(after, l) {
        assert InGroup(mid, g, l) && LegOk(mid, l);
        CloseIfEmptyKeepsLeg(mid, g, reason, l);
      }
    GroupChangeKeepsDb(db, after, g);
  }

  lemma ClaimedLegOk(db: Db, leg: LegId, worker: WorkerId, now: Time, l: LegId)
    requires DbOk(db) && Claim(db, leg, worker, now).Some? && InGroup(db, db.legs[leg].group, l)
    ensures var after := Claim(db, leg, worker, now).value.db;
            && l in after.legs && LegOk(after, l)
            && (l != leg ==> !IsActive(after.legs[l].status) && (after.legs[l].note.RetiredBy? ==> after.legs[l].note == RetiredBy(leg)))
  {
    hide OneLivePerScope, GroupOk;
    var g := db.legs[leg].group;
    assert WorkingShape(db, g) by { assert GroupOk(db, g); WorkingMeans(db, g); }
    assert LegOk(db, leg) && LegOk(db, l);
  }

  lemma WorkingMeans(db: Db, g: GroupId)
    requires g in db.groups && GroupOk(db, g) && db.groups[g].status == GroupWorking
    ensures WorkingShape(db, g)
  {
  }

  lemma ClaimKeepsDb(db: Db, leg: LegId, worker: WorkerId, now: Time)
    requires DbOk(db) && Claim(db, leg, worker, now).Some?
    ensures var after := Claim(db, leg, worker, now).value.db;
            DbOk(after) && OnlyGroupChanged(db, after, db.legs[leg].group)
  {
    hide DbOk, LegOk;
    var g := db.legs[leg].group;
    var after := Claim(db, leg, worker, now).value.db;
    forall l | InGroup(after, g, l)
      ensures LegOk(after, l)
      ensures l != leg ==> !IsActive(after.legs[l].status) && (after.legs[l].note.RetiredBy? ==> after.legs[l].note == RetiredBy(leg))
    {
      ClaimedLegOk(db, leg, worker, now, l);
    }
    assert InGroup(after, g, leg);
    GroupChangeKeepsDb(db, after, g);
  }

  lemma ReleasedLegsOk(db: Db, leg: LegId, retired: set<LegId>, status: LegStatus, note: Note)
    requires DbOk(db) && leg in db.legs && db.groups[db.legs[leg].group].status == GroupPendingFire
    requires db.groups[db.legs[leg].group].fireLeg == Some(leg)
    requires forall l :: l in retired ==> Restorable(db, leg, l)
    requires status in {Working, Failed, Expired} && !note.RetiredBy? && (status == Working ==> note == NoNote)
    requires forall l :: InGroup(db, db.legs[leg].group, l) && db.legs[l].note == RetiredBy(leg) ==> l in retired
    ensures var mid := Released(db, leg, retired, status, note);
            var g := db.legs[leg].group;
            && (forall l :: InGroup(mid, g, l) ==>
                  LegOk(mid, l) && mid.legs[l].status != PendingFire && mid.legs[l].status != Triggered && !mid.legs[l].note.RetiredBy?)
            && (forall l :: l in db.legs && db.legs[l].group != g ==> mid.legs[l] == db.legs[l])
  {
    var g := db.legs[leg].group;
    var mid := Released(db, leg, retired, status, note);
    assert PendingShape(db, g) by { assert GroupOk(db, g); }
    assert leg in retired ==> Restorable(db, leg, leg);
    forall l | InGroup(mid, g, l)
      ensures LegOk(mid, l)
      ensures mid.legs[l].status != PendingFire && mid.legs[l].status != Triggered && !mid.legs[l].note.RetiredBy?
    {
      assert LegOk(db, l) && InGroup(db, g, l);
      assert l in retired <==> db.legs[l].note == RetiredBy(leg);
    }
  }

  lemma CloseIfEmptyOnlyChangesGroup(db: Db, mid: Db, g: GroupId, reason: string)
    requires OnlyGroupChanged(db, mid, g) && g in mid.groups
    ensures OnlyGroupChanged(db, CloseIfEmpty(mid, g, reason), g)
  {
  }

  lemma SettleKeepsDb(db: Db, leg: LegId, retired: set<LegId>, status: LegStatus, note: Note, worker: WorkerId, reason: string)
    requires DbOk(db) && SettleNoSend(db, leg, retired, status, note, worker, reason).Some?
    requires status in {Working, Failed, Expired} && !note.RetiredBy? && (status == Working ==> note == NoNote)
    requires forall l :: InGroup(db, db.legs[leg].group, l) && db.legs[l].note == RetiredBy(leg) ==> l in retired
    ensures var after := SettleNoSend(db, leg, retired, status, note, worker, reason).value;
            DbOk(after) && OnlyGroupChanged(db, after, db.legs[leg].group)
  {
    hide DbOk, LegOk, GroupOk, CloseIfEmpty;
    var g := db.legs[leg].group;
    var mid := Released(db, leg, retired, status, note);
    var after := CloseIfEmpty(mid, g, reason);
    assert OnlyGroupChanged(db, after, g) by {
      ReleasedLegsOk(db, leg, retired, status, note);
      CloseIfEmptyOnlyChangesGroup(db, mid, g, reason);
    }
    assert GroupOk(after, g) && (forall l :: InGroup(after, g, l) ==> LegOk(after, l)) by {
      ReleasedLegsOk(db, leg, retired, status, note);
      CloseIfEmptyGivesShape(mid, g, reason);
      forall l | InGroup(after, g, l) ensures LegOk(after, l) {
        assert InGroup(mid, g, l) && LegOk(mid, l);
        CloseIfEmptyKeepsLeg(mid, g, reason, l);
      }
    }
    GroupChangeKeepsDb(db, after, g);
  }

  lemma FinishedLegOk(db: Db, leg: LegId, order: OrderId, worker: WorkerId, l: LegId)
    requires DbOk(db) && Finish(db, leg, order, worker).Some? && InGroup(db, db.legs[leg].group, l)
    ensures var after := Finish(db, leg, order, worker).value;
            && l in after.legs && LegOk(after, l)
            && (l != leg ==> !IsActive(after.legs[l].status) && !after.legs[l].note.RetiredBy?)
  {
    hide OneLivePerScope, GroupOk;
    var g := db.legs[leg].group;
    assert PendingShape(db, g) by { assert GroupOk(db, g); PendingMeans(db, g); }
    assert LegOk(db, leg) && LegOk(db, l);
  }

  lemma PendingMeans(db: Db, g: GroupId)
    requires g in db.groups && GroupOk(db, g) && db.groups[g].status == GroupPendingFire
    ensures PendingShape(db, g)
  {
  }

  lemma FinishKeepsDb(db: Db, leg: LegId, order: OrderId, worker: WorkerId)
    requires DbOk(db) && Finish(db, leg, order, worker).Some?
    ensures var after := Finish(db, leg, order, worker).value;
            DbOk(after) && OnlyGroupChanged(db, after, db.legs[leg].group)
  {
    hide DbOk, LegOk;
    var g := db.legs[leg].group;
    var after := Finish(db, leg, order, worker).value;
    forall l | InGroup(after, g, l)
      ensures LegOk(after, l)
      ensures l != leg ==> !IsActive(after.legs[l].status) && !after.legs[l].note.RetiredBy?
    {
      FinishedLegOk(db, leg, order, worker, l);
    }
    assert InGroup(after, g, leg);
    GroupChangeKeepsDb(db, after, g);
  }

  /** A lease or explanation written on a pending group touches no leg. */
  lemma LeaseChangeKeepsDb(db: Db, g: GroupId, worker: WorkerId, until: Time, note: Option<string>)
    requires DbOk(db) && g in db.groups && db.groups[g].status == GroupPendingFire
    ensures var after := db.(groups := db.groups[g := db.groups[g].(leaseOwner := Some(worker), leaseExpires := Some(until), note := note)]);
            DbOk(after) && OnlyGroupChanged(db, after, g)
  {
    var after := db.(groups := db.groups[g := db.groups[g].(leaseOwner := Some(worker), leaseExpires := Some(until), note := note)]);
    assert PendingShape(db, g);
    assert InGroup(after, g, db.groups[g].fireLeg.value);
    forall l | InGroup(after, g, l)
      ensures LegOk(after, l) && after.legs[l] == db.legs[l]
    {
      assert LegOk(db, l) && InGroup(db, g, l);
    }
    GroupChangeKeepsDb(db, after, g);
  }

  lemma TakeOverKeepsDb(db: Db, g: GroupId, worker: WorkerId, now: Time)
    requires DbOk(db) && TakeOver(db, g, worker, now).Some?
    ensures DbOk(TakeOver(db, g, worker, now).value) && OnlyGroupChanged(db, TakeOver(db, g, worker, now).value, g)
  {
    LeaseChangeKeepsDb(db, g, worker, now + GROUP_FIRE_LEASE_MS, db.groups[g].note);
  }

  lemma ExtendKeepsDb(db: Db, g: GroupId, until: Time, text: string)
    requires DbOk(db)
    ensures DbOk(Extend(db, g, until, text)) && OnlyGroupChanged(db, Extend(db, g, until, text), g)
  {
    if g in db.groups && db.groups[g].status == GroupPendingFire {
      assert PendingShape(db, g);
      LeaseChangeKeepsDb(db, g, db.groups[g].leaseOwner.value, until, Some(text));
    }
  }

  lemma AnnotateKeepsDb(db: Db, leg: LegId, text: string)
    requires DbOk(db)
    ensures DbOk(Annotate(db, leg, text))
    ensures leg in db.legs ==> OnlyGroupChanged(db, Annotate(db, leg, text), db.legs[leg].group)
  {
    var after := Annotate(db, leg, text);
    if leg in db.legs && db.legs[leg].status in {PendingFire, Triggered} {
      var g := db.legs[leg].group;
      assert LegOk(db, leg) && GroupOk(db, g) && InGroup(db, g, leg);
      forall l | InGroup(after, g, l)
        ensures LegOk(after, l) && (l != leg ==> after.legs[l] == db.legs[l])
      {
        assert LegOk(db, l) && InGroup(db, g, l);
      }
      assert InGroup(after, g, leg);
      assert GroupOk(after, g);
      GroupChangeKeepsDb(db, after, g);
    }
  }

  /** Broker rows move on, and an order once terminal stays terminal. */
  ghost predicate TradesAdvance(before: seq<Trade>, after: seq<Trade>) {
    forall scope, order :: OrderTerminal(before, scope, order) ==> OrderTerminal(after, scope, order)
  }

  lemma TradesKeepDb(db: Db, trades: seq<Trade>)
    requires DbOk(db) && TradesAdvance(db.trades, trades)
    ensures DbOk(db.(trades := trades))
  {
    var after := db.(trades := trades);
    forall g | g in after.groups
      ensures GroupOk(after, g) && (IsLive(after, g) ==> IsLive(db, g))
    {
      assert GroupOk(db, g);
      assert forall l :: InGroup(after, g, l) <==> InGroup(db, g, l);
      if db.groups[g].status == GroupWorking {
        var l :| InGroup(db, g, l) && db.legs[l].status == Working;
        assert InGroup(after, g, l);
      } else if db.groups[g].status == GroupFired {
        assert InGroup(db, g, db.groups[g].fireLeg.value);
        if CloseSettled(db, db.groups[g]) {
          assert OrderTerminal(db.trades, db.groups[g].scope, db.legs[db.groups[g].fireLeg.value].brokerOrder.value);
        }
      }
    }
    forall l | l in after.legs
      ensures LegOk(after, l)
    {
      assert LegOk(db, l);
    }
  }
}
