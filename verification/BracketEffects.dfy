/** What one operation of a client or a sweep means for the rows, beyond keeping the invariant. */
module BracketEffects {
  import opened Wrappers
  import opened BracketRules
  import opened BracketInvariant
  import opened BracketSweeps

  /**
   Arming leaves one working leg of the requested kind and size in a working bracket of exactly the
   requested position and size, and changes no other leg and no other bracket. A leg that is re-armed
   keeps its id and nothing else of its earlier firing.
   */
  lemma ArmMeans(db: Db, req: ArmRequest, canonical: Option<GroupId>, existing: Option<LegId>, newId: LegId, now: Time)
    requires DbOk(db) && newId !in db.legs && IsCanonical(db, req.scope, canonical)
    requires Arm(db, req, canonical, existing, newId, now).Success?
    ensures var (after, l) := Arm(db, req, canonical, existing, newId, now).value;
            && l in after.legs && l == (if existing.Some? then existing.value else newId)
            && after.legs[l].status == Working && after.legs[l].kind == req.kind && after.legs[l].quantity == req.quantity
            && after.legs[l].user == req.scope.user && after.legs[l].expiresAt == req.expiresAt
            && after.legs[l].triggeredAt.None? && after.legs[l].brokerOrder.None? && after.legs[l].note.NoNote?
            && after.legs[l].group in after.groups
            && var group := after.groups[after.legs[l].group];
            && group.status == GroupWorking && group.scope == req.scope && group.protectedQuantity == req.quantity
            && (canonical.Some? ==> after.groups == db.groups && after.legs[l].group == canonical.value)
            && (forall k :: k in db.legs && k != l ==> k in after.legs && after.legs[k] == db.legs[k])
            && (forall g :: g in db.groups && g != after.legs[l].group ==> g in after.groups && after.groups[g] == db.groups[g])
            && after.trades == db.trades
  {
    hide DbOk, UnresolvedClose;
    EnsuredGroupAcceptsLeg(db, req, canonical, now);
  }

  /** A resize gives the bracket and each of its working legs the new size, and changes nothing else. */
  lemma ResizeMeans(db: Db, user: UserId, leg: LegId, quantity: int)
    requires DbOk(db) && Resize(db, user, leg, quantity).Success?
    ensures var after := Resize(db, user, leg, quantity).value; var g := db.legs[leg].group;
            && after.groups == db.groups[g := db.groups[g].(protectedQuantity := quantity)]
            && after.legs.Keys == db.legs.Keys && after.trades == db.trades
            && (forall l :: l in db.legs ==>
                  after.legs[l] == if InGroup(db, g, l) && db.legs[l].status == Working then db.legs[l].(quantity := quantity) else db.legs[l])
  {
    assert forall l :: l in db.legs ==> LegOk(db, l);
  }

  /** Cancelling retires that leg alone; its bracket closes exactly when no working leg is left, and stays as it was otherwise. */
  lemma CancelMeans(db: Db, user: UserId, leg: LegId)
    requires DbOk(db) && CancelLeg(db, user, leg).Success?
    ensures var after := CancelLeg(db, user, leg).value; var g := db.legs[leg].group;
            && g in after.groups && after.legs == db.legs[leg := db.legs[leg].(status := Cancelled)]
            && (forall h :: h in db.groups && h != g ==> h in after.groups && after.groups[h] == db.groups[h])
            && (if exists l :: l != leg && InGroup(db, g, l) && db.legs[l].status == Working then after.groups[g] == db.groups[g]
                else after.groups[g].status == GroupClosed && after.groups[g].scope == db.groups[g].scope)
  {
    var g := db.legs[leg].group;
    assert LegOk(db, leg) && GroupOk(db, g);
    var marked := db.(legs := db.legs[leg := db.legs[leg].(status := Cancelled, note := NoNote)]);
    if l :| l != leg && InGroup(db, g, l) && db.legs[l].status == Working {
      assert marked.legs[l] == db.legs[l];
      assert HasActiveLeg(marked, g);
    } else {
      forall l | l in marked.legs && marked.legs[l].group == g ensures !IsActive(marked.legs[l].status) {
        assert l != leg ==> InGroup(db, g, l);
      }
    }
  }

  /** Finishing marks the fire leg triggered with its order and clears the marker of every sibling the claim retired. */
  lemma FinishMeans(db: Db, leg: LegId, order: OrderId, worker: WorkerId)
    requires DbOk(db) && Finish(db, leg, order, worker).Some?
    ensures var after := Finish(db, leg, order, worker).value; var g := db.legs[leg].group;
            && g in after.groups && after.groups[g].status == GroupFired && after.groups[g].fireLeg == Some(leg) && Unleased(after.groups[g])
            && after.legs.Keys == db.legs.Keys
            && after.legs[leg] == db.legs[leg].(status := Triggered, brokerOrder := Some(order))
            && (forall l :: l in db.legs && l != leg ==>
                  after.legs[l] == if InGroup(db, g, l) && db.legs[l].note == RetiredBy(leg) then db.legs[l].(note := NoNote) else db.legs[l])
  {
    hide OneLivePerScope, GroupOk;
    var g := db.legs[leg].group;
    assert PendingShape(db, g) by { assert GroupOk(db, g); PendingMeans(db, g); }
    forall l | l in db.legs && l != leg
      ensures l in FinishedSiblings(db, leg) <==> InGroup(db, g, l) && db.legs[l].note == RetiredBy(leg)
    {
      assert LegOk(db, l) && LegOk(db, leg);
    }
  }

  // ---------------------------------------------------------------------------
  // The orphan sweep
  // ---------------------------------------------------------------------------

  /** Scaling down keeps the invariant, bracket by bracket. */
  lemma {:induction false} ShrinkAllKeepsDb(db: Db, held: Holdings, which: set<GroupId>)
    requires DbOk(db) && forall g :: g in which ==> g in db.groups && db.groups[g].status == GroupWorking && db.groups[g].protectedQuantity > HeldFor(db, held, g)
    ensures DbOk(ShrinkAll(db, held, which))
    decreases which
  {
    hide DbOk, ShrinkAll, Shrink;
    if which == {} {
      ShrinkNothing(db, held);
    } else {
      var g :| g in which;
      var rest := which - {g};
      assert rest + {g} == which;
      ShrinkAllKeepsDb(db, held, rest);
      ShrinkOneMore(db, held, rest, g);
      ShrinkKeepsDb(ShrinkAll(db, held, rest), g, db.groups[g].scope, HeldFor(db, held, g));
    }
  }

  lemma {:induction false} RetireAllKeepsDb(db: Db, which: set<LegId>, reason: string)
    requires DbOk(db) && AllRetirable(db, which)
    ensures DbOk(RetireAll(db, which, Cancelled, reason))
    decreases which
  {
    assert forall l :: l in db.legs ==> LegOk(db, l);
    hide DbOk, RetireAll, RetireLeg;
    if which == {} {
      RetireNothing(db, Cancelled, reason);
    } else {
      var l :| l in which;
      var rest := which - {l};
      assert rest + {l} == which;
      RetireAllKeepsDb(db, rest, reason);
      RetireOneMore(db, rest, l, Cancelled, reason);
      RetireLegKeepsDb(RetireAll(db, rest, Cancelled, reason), l, Cancelled, reason);
    }
  }

  lemma SweptKeepsDb(db: Db, account: Account, held: Holdings, aged: set<LegId>)
    requires DbOk(db)
    ensures DbOk(Swept(db, account, held, aged))
  {
    var which := OversizedGroups(db, account, held);
    var fitted := ShrinkAll(db, held, which);
    hide DbOk, RetireAll;
    ShrinkAllKeepsDb(db, held, which);
    ShrinkingMakesNoOrphans(db, account, held, aged, which);
    OrphansAreWorking(fitted, account, held, aged);
    RetireAllKeepsDb(fitted, Orphans(db, account, held, aged), "All bracket legs orphaned from the broker position");
  }

  lemma ShrinkAllTouches(db: Db, held: Holdings, which: set<GroupId>)
    ensures var after := ShrinkAll(db, held, which);
            && after.legs.Keys == db.legs.Keys && after.groups.Keys == db.groups.Keys && after.trades == db.trades
            && (forall g :: g in db.groups ==>
                  after.groups[g] == if g in which then db.groups[g].(protectedQuantity := HeldFor(db, held, g)) else db.groups[g])
            && (forall l :: l in db.legs ==>
                  after.legs[l] == db.legs[l]
                  || (db.legs[l].group in which && db.legs[l].status == Working && after.legs[l] == db.legs[l].(quantity := HeldFor(db, held, db.legs[l].group))))
  {
  }

  lemma RetireAllTouches(db: Db, which: set<LegId>, status: LegStatus, reason: string)
    ensures var after := RetireAll(db, which, status, reason);
            && after.legs.Keys == db.legs.Keys && after.groups.Keys == db.groups.Keys && after.trades == db.trades
            && (forall l :: l in db.legs ==> after.legs[l] == if l in which then RetiredRow(db.legs[l], status) else db.legs[l])
            && (forall g :: g in db.groups ==>
                  after.groups[g] == db.groups[g]
                  || (db.groups[g].status == GroupWorking && after.groups[g] == ClosedGroup(db.groups[g], reason)
                      && exists l :: l in which && l in db.legs && db.legs[l].group == g))
  {
    hide HasActiveLeg;
  }

  lemma ScaledGroups(db: Db, account: Account, held: Holdings)
    ensures forall g :: g in OversizedGroups(db, account, held) ==>
              g in ScopedGroups(db, account) && g in db.groups && db.groups[g].protectedQuantity > HeldFor(db, held, g)
  {
  }

  lemma OrphanLegs(db: Db, account: Account, held: Holdings, aged: set<LegId>)
    ensures forall l :: l in Orphans(db, account, held, aged) ==>
              l in db.legs && db.legs[l].status == Working && db.legs[l].group in ScopedGroups(db, account)
  {
  }

  /** Only working legs of the account's working brackets change, and other brackets stay as they are. */
  lemma SweepStaysInAccount(db: Db, account: Account, held: Holdings, aged: set<LegId>)
    ensures var after := Swept(db, account, held, aged);
            && after.legs.Keys == db.legs.Keys && after.groups.Keys == db.groups.Keys && after.trades == db.trades
            && (forall g :: g in db.groups && after.groups[g] != db.groups[g] ==> g in ScopedGroups(db, account))
            && (forall l :: l in db.legs && after.legs[l] != db.legs[l] ==>
                  db.legs[l].status == Working && db.legs[l].group in ScopedGroups(db, account))
  {
    hide RetireAll, ShrinkAll, OversizedGroups, Orphans, ScopedGroups;
    var which := OversizedGroups(db, account, held);
    var fitted := ShrinkAll(db, held, which);
    ShrinkAllTouches(db, held, which);
    RetireAllTouches(fitted, Orphans(db, account, held, aged), Cancelled, "All bracket legs orphaned from the broker position");
    ScaledGroups(db, account, held);
    OrphanLegs(db, account, held, aged);
  }

  /**
   After the sweep no working bracket leg of the account asks for more than is held of its contract,
   and no aged one is left whose contract is not held at all. Sizes never go up.
   */
  lemma SweepFitsPositions(db: Db, account: Account, held: Holdings, aged: set<LegId>, l: LegId)
    requires DbOk(db) && l in db.legs
    ensures var after := Swept(db, account, held, aged);
            && l in after.legs && after.legs[l].quantity <= db.legs[l].quantity
            && (SweptLeg(after, account, l) ==>
                  var contract := after.groups[after.legs[l].group].scope.contract;
                  && (l in aged ==> contract in held)
                  && (contract in held && held[contract].Some? ==> after.legs[l].quantity <= held[contract].value))
  {
    hide RetireAll, ShrinkAll, OversizedGroups, Orphans, DbOk;
    var which := OversizedGroups(db, account, held);
    var fitted := ShrinkAll(db, held, which);
    ShrinkAllTouches(db, held, which);
    RetireAllTouches(fitted, Orphans(db, account, held, aged), Cancelled, "All bracket legs orphaned from the broker position");
    FittedLeg(db, account, held, l);
    OrphansHave(db, account, held, aged, l);
    LegHasGroup(db, l);
  }

  lemma LegHasGroup(db: Db, l: LegId)
    requires DbOk(db) && l in db.legs
    ensures db.legs[l].group in db.groups
  {
    assert LegOk(db, l);
  }

  lemma OrphansHave(db: Db, account: Account, held: Holdings, aged: set<LegId>, l: LegId)
    requires l in db.legs
    ensures SweptLeg(db, account, l) && l in aged && db.groups[db.legs[l].group].scope.contract !in held ==> l in Orphans(db, account, held, aged)
  {
  }

  lemma FittedLeg(db: Db, account: Account, held: Holdings, l: LegId)
    requires DbOk(db) && l in db.legs
    ensures var fitted := ShrinkAll(db, held, OversizedGroups(db, account, held));
            && fitted.legs[l].quantity <= db.legs[l].quantity
            && (SweptLeg(db, account, l) ==>
                  var g := db.legs[l].group; var contract := db.groups[g].scope.contract;
                  contract in held && held[contract].Some? ==> fitted.legs[l].quantity <= held[contract].value)
  {
    hide HasActiveLeg, GroupOk, OneLivePerScope;
    assert LegOk(db, l);
  }

  /**
   After the sweep no target or stop without a group asks for more than is held of its contract, and no
   aged one is left whose contract is not held at all. Sizes never go up, and limit lines, other users'
   lines and lines of the other environment stay as they are.
   */
  lemma SweepFitsLines(lines: Lines, account: Account, held: Holdings, aged: set<LegId>, l: LegId)
    requires l in lines
    ensures var after := SweptLines(lines, account, held, aged);
            && after.Keys == lines.Keys && after[l].quantity <= lines[l].quantity
            && (!SweptLine(lines[l], account) ==> after[l] == lines[l])
            && (SweptLine(after[l], account) ==>
                  && (l in aged ==> after[l].contract in held)
                  && (after[l].contract in held && held[after[l].contract].Some? ==> after[l].quantity <= held[after[l].contract].value))
  {
    hide OrphanLines, SweptLine;
    assert SweptLine(lines[l], account) && l in aged && lines[l].contract !in held ==> l in OrphanLines(lines, account, held, aged) by {
      OrphanLineIff(lines, account, held, aged, l);
    }
    OrphanLineIff(lines, account, held, aged, l);
    LineKeepsOwner(lines[l], account, held);
  }

  lemma OrphanLineIff(lines: Lines, account: Account, held: Holdings, aged: set<LegId>, l: LegId)
    requires l in lines
    ensures l in OrphanLines(lines, account, held, aged) <==> SweptLine(lines[l], account) && l in aged && lines[l].contract !in held
  {
  }

  lemma LineKeepsOwner(line: Line, account: Account, held: Holdings)
    ensures SweptLine(FittedLine(line, account, held), account) <==> SweptLine(line, account)
    ensures !SweptLine(line.(status := Cancelled), account) && !SweptLine(FittedLine(line, account, held).(status := Cancelled), account)
  {
  }

  /**
   Unlike a bracket, such a line is not safe from the sweep of another account: the sweep of any account
   of the user in that environment does the same to it, and cancels it, once aged, when that account
   does not hold the contract, whatever the account it protects holds.
   */
  lemma LineSweepIgnoresAccount(lines: Lines, account: Account, other: Account, held: Holdings, aged: set<LegId>, l: LegId)
    requires account.user == other.user && account.mode == other.mode && l in lines
    ensures SweptLines(lines, account, held, aged) == SweptLines(lines, other, held, aged)
    ensures SweptLine(lines[l], other) && l in aged && lines[l].contract !in held ==>
              SweptLines(lines, account, held, aged)[l] == lines[l].(status := Cancelled)
  {
    assert OrphanLines(lines, account, held, aged) == OrphanLines(lines, other, held, aged);
    assert SweptLines(lines, account, held, aged) == SweptLines(lines, other, held, aged);
  }

  // ---------------------------------------------------------------------------
  // The sweeps, row by row
  // ---------------------------------------------------------------------------

  /** A working leg of a working bracket of this very account. */
  ghost predicate LegOfAccount(db: Db, account: Account, l: LegId) {
    && l in db.legs && db.legs[l].status.Working? && db.legs[l].group in db.groups
    && var group := db.groups[db.legs[l].group];
    && group.status.GroupWorking?
    && Account(group.scope.user, group.scope.provider, group.scope.mode, group.scope.account) == account
  }

  /** What the account holds of the leg's contract is known and less than the leg asks for. */
  ghost predicate AsksTooMuch(db: Db, account: Account, held: Holdings, l: LegId) {
    && LegOfAccount(db, account, l)
    && exists quantity :: db.groups[db.legs[l].group].scope.contract in held &&
                          held[db.groups[db.legs[l].group].scope.contract] == Some(quantity) && quantity < db.legs[l].quantity
  }

  /** Past the grace period, and nothing is held of its contract. */
  ghost predicate Unprotecting(db: Db, account: Account, held: Holdings, aged: set<LegId>, l: LegId) {
    LegOfAccount(db, account, l) && l in aged && db.groups[db.legs[l].group].scope.contract !in held
  }

  /** In a sound database the leg of an account is told by its group alone. */
  lemma SweptLegMeans(db: Db, account: Account, held: Holdings, aged: set<LegId>, l: LegId)
    requires DbOk(db)
    ensures SweptLeg(db, account, l) <==> LegOfAccount(db, account, l)
    ensures l in Orphans(db, account, held, aged) <==> Unprotecting(db, account, held, aged, l)
    ensures NeedsScaling(db, account, held, l) <==> AsksTooMuch(db, account, held, l)
    ensures LegOfAccount(db, account, l) ==> db.legs[l].quantity == db.groups[db.legs[l].group].protectedQuantity && db.legs[l].note.NoNote?
  {
    hide GroupOk, OneLivePerScope;
    if l in db.legs { assert LegOk(db, l); }
    if NeedsScaling(db, account, held, l) {
      var quantity := held[db.groups[db.legs[l].group].scope.contract].value;
      assert held[db.groups[db.legs[l].group].scope.contract] == Some(quantity);
    }
  }

  /** What the sweep's queries look at, in a database of any shape: owner and environment of the leg, and the whole account of its bracket. */
  lemma SweepQueries(db: Db, account: Account, held: Holdings, aged: set<LegId>, l: LegId, g: GroupId)
    ensures g in ScopedGroups(db, account) <==>
              g in db.groups && db.groups[g].status.GroupWorking?
              && Account(db.groups[g].scope.user, db.groups[g].scope.provider, db.groups[g].scope.mode, db.groups[g].scope.account) == account
    ensures SweptLeg(db, account, l) <==> LegOfAccount(db, account, l) && (db.legs[l].user, db.legs[l].mode) == (account.user, account.mode)
    ensures l in Orphans(db, account, held, aged) <==> Unprotecting(db, account, held, aged, l) && (db.legs[l].user, db.legs[l].mode) == (account.user, account.mode)
    ensures NeedsScaling(db, account, held, l) <==>
              LegOfAccount(db, account, l) && (db.legs[l].user, db.legs[l].mode) == (account.user, account.mode)
              && var group := db.groups[db.legs[l].group];
                 group.scope.contract in held &&
                 match held[group.scope.contract]
                 case Some(quantity) => quantity < db.legs[l].quantity && quantity < group.protectedQuantity
                 case None => false
  {
  }

  /** Every working leg of a bracket that is scaled down is one that asks too much. */
  lemma ScaledTogether(db: Db, account: Account, held: Holdings, l: LegId)
    requires DbOk(db) && l in db.legs && db.legs[l].status == Working
    ensures db.legs[l].group in OversizedGroups(db, account, held) <==> AsksTooMuch(db, account, held, l)
  {
    hide DbOk, NeedsScaling, AsksTooMuch;
    SweptLegMeans(db, account, held, {}, l);
    if db.legs[l].group in OversizedGroups(db, account, held) {
      var k :| k in db.legs && NeedsScaling(db, account, held, k) && db.legs[k].group == db.legs[l].group;
      SweptLegMeans(db, account, held, {}, k);
      SiblingAsksToo(db, account, held, k, l);
    }
  }

  lemma SiblingAsksToo(db: Db, account: Account, held: Holdings, k: LegId, l: LegId)
    requires DbOk(db) && AsksTooMuch(db, account, held, k) && l in db.legs && db.legs[l].group == db.legs[k].group && db.legs[l].status == Working
    ensures AsksTooMuch(db, account, held, l)
  {
    hide GroupOk, OneLivePerScope;
    assert LegOk(db, l) && LegOk(db, k);
  }

  /**
   The orphan sweep on one bracket leg: it is cancelled, and returned, exactly when it is a working leg of
   the account past the grace period whose contract is not held at all; it is cut down to what is held
   exactly when it asks for more; nothing else of it changes. A leg whose contract is held, or that is not
   aged, stays armed.
   */
  lemma SweepMeans(db: Db, account: Account, held: Holdings, aged: set<LegId>, l: LegId)
    requires DbOk(db) && l in db.legs
    ensures var after := Swept(db, account, held, aged); var g := db.legs[l].group;
            var orphan := Unprotecting(db, account, held, aged, l); var tooMuch := AsksTooMuch(db, account, held, l);
            && l in after.legs && g in db.groups
            && (l in Orphans(db, account, held, aged) <==> orphan)
            && (tooMuch ==> db.groups[g].scope.contract in held && held[db.groups[g].scope.contract].Some?)
            && after.legs[l] == db.legs[l].(status := if orphan then Cancelled else db.legs[l].status,
                                            quantity := if tooMuch then held[db.groups[g].scope.contract].value else db.legs[l].quantity)
  {
    hide DbOk, RetireAll, ShrinkAll, OversizedGroups, Orphans, NeedsScaling;
    var which := OversizedGroups(db, account, held);
    var fitted := ShrinkAll(db, held, which);
    SweptLegMeans(db, account, held, aged, l);
    LegHasGroup(db, l);
    RetireAllTouches(fitted, Orphans(db, account, held, aged), Cancelled, "All bracket legs orphaned from the broker position");
    ShrunkLeg(db, held, which, l);
    if db.legs[l].status == Working { ScaledTogether(db, account, held, l); } else { NotWorkingAsksNothing(db, account, held, aged, l); }
  }

  lemma NotWorkingAsksNothing(db: Db, account: Account, held: Holdings, aged: set<LegId>, l: LegId)
    requires l in db.legs && db.legs[l].status != Working
    ensures !AsksTooMuch(db, account, held, l) && !Unprotecting(db, account, held, aged, l)
  {
  }

  lemma ShrunkLeg(db: Db, held: Holdings, which: set<GroupId>, l: LegId)
    requires l in db.legs
    ensures var after := ShrinkAll(db, held, which);
            && after.legs.Keys == db.legs.Keys
            && after.legs[l] == if db.legs[l].status == Working && db.legs[l].group in which
                                then db.legs[l].(quantity := HeldFor(db, held, db.legs[l].group)) else db.legs[l]
  {
  }

  /**
   The orphan sweep on one bracket: it closes exactly when each of its active legs was cancelled by the
   sweep, and at least one was; otherwise it keeps everything but its size.
   */
  lemma SweepMeansForGroup(db: Db, account: Account, held: Holdings, aged: set<LegId>, g: GroupId)
    requires DbOk(db) && g in db.groups
    ensures var after := Swept(db, account, held, aged);
            var emptied := (exists l :: InGroup(db, g, l) && Unprotecting(db, account, held, aged, l))
                           && (forall l :: InGroup(db, g, l) && IsActive(db.legs[l].status) ==> Unprotecting(db, account, held, aged, l));
            && g in after.groups
            && var (a, b) := (db.groups[g], after.groups[g]);
            && b.status == (if emptied then GroupClosed else a.status)
            && b.scope == a.scope && b.createdAt == a.createdAt
            && (!emptied ==> b.fireLeg == a.fireLeg && b.leaseOwner == a.leaseOwner && b.leaseExpires == a.leaseExpires && b.note == a.note)
  {
    hide DbOk, OversizedGroups, Orphans, NeedsScaling, Unprotecting, RetireAll, ShrinkAll;
    var which := OversizedGroups(db, account, held);
    var orphans := Orphans(db, account, held, aged);
    forall l ensures l in orphans <==> Unprotecting(db, account, held, aged, l) { SweptLegMeans(db, account, held, aged, l); }
    ShrunkGroup(db, held, which, g);
    OrphansInWorking(db, account, held, aged, g);
    RetiredGroup(db, ShrinkAll(db, held, which), orphans, g);
  }

  /** And its size stays that of its working legs. */
  lemma SweepMeansForSize(db: Db, account: Account, held: Holdings, aged: set<LegId>, g: GroupId)
    requires DbOk(db) && g in db.groups
    ensures var after := Swept(db, account, held, aged);
            && g in after.groups && after.legs.Keys == db.legs.Keys
            && (forall l :: InGroup(db, g, l) && db.legs[l].status == Working ==> after.groups[g].protectedQuantity == after.legs[l].quantity)
            && ((forall l :: !(InGroup(db, g, l) && db.legs[l].status == Working)) ==>
                  after.groups[g].protectedQuantity == db.groups[g].protectedQuantity)
  {
    hide DbOk, OversizedGroups, Orphans, NeedsScaling, RetireAll, ShrinkAll;
    var which := OversizedGroups(db, account, held);
    var fitted := ShrinkAll(db, held, which);
    ShrunkGroup(db, held, which, g);
    RetireAllTouches(fitted, Orphans(db, account, held, aged), Cancelled, "All bracket legs orphaned from the broker position");
    forall l | InGroup(db, g, l) && db.legs[l].status == Working
      ensures fitted.groups[g].protectedQuantity == Swept(db, account, held, aged).legs[l].quantity
    {
      QuantityFollows(db, account, held, aged, g, l);
    }
    if forall l :: !(InGroup(db, g, l) && db.legs[l].status == Working) { NothingToScale(db, account, held, g); }
  }

  lemma ShrunkGroup(db: Db, held: Holdings, which: set<GroupId>, g: GroupId)
    requires g in db.groups
    ensures var after := ShrinkAll(db, held, which);
            && g in after.groups && after.groups[g] == (if g in which then db.groups[g].(protectedQuantity := HeldFor(db, held, g)) else db.groups[g])
            && after.legs.Keys == db.legs.Keys
            && (forall l :: l in db.legs ==> after.legs[l].group == db.legs[l].group && after.legs[l].status == db.legs[l].status)
  {
  }

  lemma OrphansInWorking(db: Db, account: Account, held: Holdings, aged: set<LegId>, g: GroupId)
    requires g in db.groups
    ensures forall l :: l in Orphans(db, account, held, aged) && InGroup(db, g, l) ==> db.groups[g].status == GroupWorking && db.legs[l].status == Working
  {
  }

  lemma RetiredGroup(db: Db, fitted: Db, orphans: set<LegId>, g: GroupId)
    requires g in fitted.groups && fitted.legs.Keys == db.legs.Keys
    requires forall l :: l in db.legs ==> fitted.legs[l].group == db.legs[l].group && fitted.legs[l].status == db.legs[l].status
    requires forall l :: l in orphans && InGroup(db, g, l) ==> fitted.groups[g].status == GroupWorking && db.legs[l].status == Working
    ensures var reason := "All bracket legs orphaned from the broker position";
            var after := RetireAll(fitted, orphans, Cancelled, reason);
            var emptied := (exists l :: InGroup(db, g, l) && l in orphans)
                           && (forall l :: InGroup(db, g, l) && IsActive(db.legs[l].status) ==> l in orphans);
            && g in after.groups && after.groups[g] == if emptied then ClosedGroup(fitted.groups[g], reason) else fitted.groups[g]
  {
    var reason := "All bracket legs orphaned from the broker position";
    var legs := map l | l in fitted.legs :: if l in orphans then RetiredRow(fitted.legs[l], Cancelled) else fitted.legs[l];
    assert RetireAll(fitted, orphans, Cancelled, reason).legs == legs;
    var after := fitted.(legs := legs);
    if forall l :: InGroup(db, g, l) && IsActive(db.legs[l].status) ==> l in orphans {
      assert !HasActiveLeg(after, g);
    } else {
      var l :| InGroup(db, g, l) && IsActive(db.legs[l].status) && l !in orphans;
      assert legs[l].group == g && IsActive(legs[l].status);
      assert HasActiveLeg(after, g);
    }
  }

  lemma QuantityFollows(db: Db, account: Account, held: Holdings, aged: set<LegId>, g: GroupId, l: LegId)
    requires DbOk(db) && InGroup(db, g, l) && db.legs[l].status == Working && g in db.groups
    ensures l in Swept(db, account, held, aged).legs
    ensures ShrinkAll(db, held, OversizedGroups(db, account, held)).groups[g].protectedQuantity == Swept(db, account, held, aged).legs[l].quantity
  {
    hide DbOk, RetireAll, ShrinkAll, OversizedGroups, Orphans;
    var which := OversizedGroups(db, account, held);
    RetireAllTouches(ShrinkAll(db, held, which), Orphans(db, account, held, aged), Cancelled, "All bracket legs orphaned from the broker position");
    ShrunkLeg(db, held, which, l);
    ShrunkGroup(db, held, which, g);
    WorkingLegSize(db, l);
  }

  lemma WorkingLegSize(db: Db, l: LegId)
    requires DbOk(db) && l in db.legs && db.legs[l].status == Working
    ensures db.legs[l].group in db.groups && db.legs[l].quantity == db.groups[db.legs[l].group].protectedQuantity
  {
    assert LegOk(db, l);
  }

  lemma NothingToScale(db: Db, account: Account, held: Holdings, g: GroupId)
    requires forall l :: !(InGroup(db, g, l) && db.legs[l].status == Working)
    ensures g !in OversizedGroups(db, account, held)
  {
    forall l | l in db.legs && db.legs[l].group == g ensures !NeedsScaling(db, account, held, l) {
      assert !(InGroup(db, g, l) && db.legs[l].status == Working);
    }
  }

  /**
   The sweep on one line without a group: cancelled, and returned, exactly when it is a working target or
   stop of the user in this environment, past the grace period, whose contract is not held; cut down to
   what is held exactly when it asks for more; otherwise as it was.
   */
  lemma LineSweepMeans(lines: Lines, account: Account, held: Holdings, aged: set<LegId>, l: LegId)
    requires l in lines
    ensures var (a, b) := (lines[l], SweptLines(lines, account, held, aged)[l]);
            var ours := a.status.Working? && (a.kind.TargetLine? || a.kind.StopLine?) && (a.user, a.mode) == (account.user, account.mode);
            var orphan := ours && l in aged && a.contract !in held;
            var tooMuch := ours && a.contract in held && exists quantity :: held[a.contract] == Some(quantity) && quantity < a.quantity;
            && (l in OrphanLines(lines, account, held, aged) <==> orphan)
            && b == a.(status := if orphan then Cancelled else a.status,
                       quantity := if tooMuch then held[a.contract].value else a.quantity)
  {
    hide SweptLine, FittedLine;
    OrphanLineIff(lines, account, held, aged, l);
    FittedLineMeans(lines[l], account, held);
    assert SweptLines(lines, account, held, aged)[l] ==
           if l in OrphanLines(lines, account, held, aged) then FittedLine(lines[l], account, held).(status := Cancelled)
           else FittedLine(lines[l], account, held);
  }

  lemma FittedLineMeans(line: Line, account: Account, held: Holdings)
    ensures var ours := line.status.Working? && (line.kind.TargetLine? || line.kind.StopLine?) && (line.user, line.mode) == (account.user, account.mode);
            var tooMuch := ours && line.contract in held && exists quantity :: held[line.contract] == Some(quantity) && quantity < line.quantity;
            && (SweptLine(line, account) <==> ours)
            && FittedLine(line, account, held) == line.(quantity := if tooMuch then held[line.contract].value else line.quantity)
  {
    if line.contract in held && held[line.contract].Some? { assert held[line.contract] == Some(held[line.contract].value); }
  }

  /**
   The expiry sweep on one row: a working leg or line is expired exactly when its time has come, that
   instant included, and is otherwise as it was; a bracket closes exactly when its last active leg expires.
   */
  lemma ExpiryMeans(db: Db, lines: Lines, now: Time, l: LegId)
    requires DbOk(db)
    ensures var after := RetireAll(db, DueLegs(db, now), Expired, "All bracket legs expired");
            var due := l in db.legs && db.legs[l].status.Working? && now >= db.legs[l].expiresAt;
            && (l in DueLegs(db, now) <==> due)
            && (l in db.legs ==> l in after.legs && after.legs[l] == if due then db.legs[l].(status := Expired) else db.legs[l])
    ensures var due := l in lines && lines[l].status.Working? && now >= lines[l].expiresAt;
            && (l in DueLines(lines, now) <==> due)
            && (l in lines ==> WithStatus(lines, DueLines(lines, now), Expired)[l] == if due then lines[l].(status := Expired) else lines[l])
  {
    hide GroupOk, OneLivePerScope, HasActiveLeg;
    if l in db.legs { assert LegOk(db, l); }
  }
}
