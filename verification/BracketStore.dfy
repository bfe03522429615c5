/**
 ChartOrdersService's transactions as they run: guarded writes one after another on the rows,
 undone when a later guard fails. Each method leaves exactly the rows its rule in BracketRules
 names, or exactly the rows it found.
 */
module BracketStore {
  import opened Wrappers
  import opened BracketRules
  import opened BracketSweeps
  import opened BracketReservation

  lemma RestorableIsThere(db: Db, leg: LegId, retired: set<LegId>)
    requires leg in db.legs
    ensures forall l :: l in retired && Restorable(db, leg, l) ==> l in db.legs
  {
  }

  class Store {
    var groups: map<GroupId, Group>
    var legs: map<LegId, Leg>
    var trades: seq<Trade>
    var lines: Lines

    function Rows(): Db
      reads this
    {
      Db(groups, legs, trades)
    }

    // -------------------------------------------------------------------------
    // Reads
    // -------------------------------------------------------------------------

    /** Is the close of a claimed or fired group still in flight? Missing rows count as in flight. */
    method IsCloseOpen(group: Group) returns (open: bool)
      requires group.status == GroupPendingFire || group.status == GroupFired
      ensures open == CloseOpen(Rows(), group) == Reserves(Rows(), group)
    {
      ReservesMeans(Rows(), group);
      if group.status == GroupPendingFire || group.fireLeg.None? { return true; }
      var leg := group.fireLeg.value;
      if leg !in legs || legs[leg].brokerOrder.None? { return true; }
      var order := legs[leg].brokerOrder.value;
      var known := false;
      for i := 0 to |trades|
        invariant forall k :: 0 <= k < i && TradeMatches(trades[k], group.scope, order) ==>
                    trades[k].status in {Filled, BrokerCancelled, BrokerRejected}
        invariant known <==> exists k :: 0 <= k < i && TradeMatches(trades[k], group.scope, order)
      {
        var trade := trades[i];
        if trade.user == group.scope.user && trade.provider == group.scope.provider && trade.mode == group.scope.mode &&
           trade.account == group.scope.account && (trade.brokerId == Some(order) || trade.clientId == Some(order)) {
          assert TradeMatches(trades[i], group.scope, order);
          known := true;
          if trade.status != Filled && trade.status != BrokerCancelled && trade.status != BrokerRejected { return true; }
        }
      }
      open := !known;
    }

    /**
     The search over the claimed and fired groups of a position. It answers yes exactly when one other than
     the excluded is claimed, or has fired a close the broker is not done with.
     */
    method HasUnresolvedCloseReservation(scope: Scope, exclude: GroupId) returns (found: bool)
      ensures found == UnresolvedClose(Rows(), scope, exclude)
      ensures found <==> exists g :: g in groups && g != exclude && groups[g].scope == scope && CloseOpen(Rows(), groups[g])
    {
      UnresolvedMeans(Rows(), scope, exclude);
      hide CloseOpen;
      var rest: set<GroupId> := set g | g in groups && groups[g].scope == scope && groups[g].status in {GroupPendingFire, GroupFired};
      while rest != {}
        invariant forall g :: g in rest ==> g in groups && groups[g].scope == scope && groups[g].status in {GroupPendingFire, GroupFired}
        invariant forall g :: g in groups && g !in rest ==> !(g != exclude && groups[g].scope == scope && Reserves(Rows(), groups[g]))
        decreases |rest|
      {
        var g :| g in rest;
        rest := rest - {g};
        if g != exclude {
          var open := IsCloseOpen(groups[g]);
          if open { return true; }
        }
      }
      return false;
    }

    method FindCanonical(scope: Scope) returns (canonical: Option<GroupId>)
      ensures IsCanonical(Rows(), scope, canonical)
    {
      canonical := None;
      var rest := groups.Keys;
      while rest != {}
        invariant rest <= groups.Keys
        invariant canonical.None? ==>
                    forall g :: g in groups && g !in rest ==> !(groups[g].scope == scope && groups[g].status == GroupWorking)
        invariant canonical.Some? ==>
                    && canonical.value in groups && groups[canonical.value].scope == scope
                    && groups[canonical.value].status == GroupWorking
                    && forall g :: g in groups && g !in rest && groups[g].scope == scope && groups[g].status == GroupWorking ==>
                                     groups[canonical.value].createdAt <= groups[g].createdAt
        decreases |rest|
      {
        var g :| g in rest;
        rest := rest - {g};
        if groups[g].scope == scope && groups[g].status == GroupWorking {
          if canonical.None? || groups[g].createdAt < groups[canonical.value].createdAt {
            canonical := Some(g);
          }
        }
      }
    }

    method FindLegOfKind(g: GroupId, kind: LegKind) returns (leg: Option<LegId>)
      ensures IsLegOfKind(Rows(), g, kind, leg)
    {
      var rest := legs.Keys;
      while rest != {}
        invariant rest <= legs.Keys
        invariant forall l :: l in legs && l !in rest ==> !(legs[l].group == g && legs[l].kind == kind)
        decreases |rest|
      {
        var l :| l in rest;
        rest := rest - {l};
        if legs[l].group == g && legs[l].kind == kind {
          return Some(l);
        }
      }
      return None;
    }

    // -------------------------------------------------------------------------
    // Client transactions
    // -------------------------------------------------------------------------

    /** The create transaction: settle on a group, then insert or re-arm the leg. */
    method Create(req: ArmRequest, newId: LegId, now: Time)
      returns (result: Result<LegId, ArmError>, ghost canonical: Option<GroupId>, ghost existing: Option<LegId>)
      requires newId !in legs
      modifies this`groups, this`legs
      ensures IsCanonical(old(Rows()), req.scope, canonical)
      ensures var ensured := EnsureGroup(old(Rows()), req, canonical, now);
              ensured.Success? ==> IsLegOfKind(ensured.value.0, ensured.value.1, req.kind, existing)
      ensures match Arm(old(Rows()), req, canonical, existing, newId, now)
              case Success(armed) => result == Success(armed.1) && Rows() == armed.0
              case Failure(error) => result == Failure(error) && Rows() == old(Rows())
    {
      var groupsBefore := groups;
      var canonicalRow := FindCanonical(req.scope);
      canonical, existing := canonicalRow, None;
      var known := req.requested in groups;
      if known && groups[req.requested].scope.user != req.scope.user {
        return Failure(NotFound), canonical, existing;
      }
      if known && groups[req.requested].scope != req.scope {
        return Failure(ScopeMismatch), canonical, existing;
      }
      if known && groups[req.requested].status !in {GroupWorking, GroupClosed} {
        return Failure(GroupClosedError), canonical, existing;
      }
      var unresolved := HasUnresolvedCloseReservation(req.scope, req.requested);
      if unresolved {
        return Failure(CloseInFlight), canonical, existing;
      }
      var g := req.requested;
      if canonicalRow.Some? {
        g := canonicalRow.value;
        if groups[g].protectedQuantity != req.quantity {
          return Failure(QuantityMismatch), canonical, existing;
        }
      } else if !known {
        groups := groups[g := OpenGroup(req.scope, req.quantity, now)];
      } else if groups[g].status != GroupClosed {
        return Failure(DuplicateKind), canonical, existing;
      } else {
        if HasActiveLeg(Rows(), g) {
          return Failure(GroupClosedError), canonical, existing;
        }
        groups := groups[g := OpenGroup(req.scope, req.quantity, groups[g].createdAt)];
      }
      var held := FindLegOfKind(g, req.kind);
      existing := held;
      if held.Some? && legs[held.value].status !in {Failed, Cancelled} {
        groups := groupsBefore;
        return Failure(DuplicateKind), canonical, existing;
      }
      var leg := if held.Some? then held.value else newId;
      legs := legs[leg := ArmedLeg(req, g)];
      result := Success(leg);
    }

    method SetQuantity(which: set<LegId>, quantity: int)
      requires which <= legs.Keys
      modifies this`groups, this`legs
      ensures legs == WithQuantity(old(legs), which, quantity) && groups == old(groups) && trades == old(trades)
    {
      var rest := which;
      while rest != {}
        invariant rest <= which && legs == WithQuantity(old(legs), which - rest, quantity)
        invariant groups == old(groups) && trades == old(trades)
        decreases |rest|
      {
        var l :| l in rest;
        rest := rest - {l};
        legs := legs[l := legs[l].(quantity := quantity)];
      }
      assert which - rest == which;
    }

    /** Resizes the group first, then its working legs; a leg that has just fired rolls everything back. */
    method UpdateQuantity(user: UserId, leg: LegId, quantity: int) returns (result: Result<set<LegId>, ArmError>)
      modifies this`groups, this`legs
      ensures match Resize(old(Rows()), user, leg, quantity)
              case Success(after) => Rows() == after && result == Success(WorkingLegs(old(Rows()), old(legs)[leg].group))
              case Failure(error) => Rows() == old(Rows()) && result == Failure(error)
    {
      if leg !in legs || legs[leg].user != user {
        return Failure(NotFound);
      }
      var g := legs[leg].group;
      if g !in groups || groups[g].scope.user != user {
        return Failure(NotFound);
      }
      if groups[g].status != GroupWorking {
        return Failure(GroupClosedError);
      }
      var groupsBefore, legsBefore := groups, legs;
      var working := WorkingLegs(Rows(), g);
      groups := groups[g := groups[g].(protectedQuantity := quantity)];
      SetQuantity(working, quantity);
      if legs[leg].status != Working {
        groups, legs := groupsBefore, legsBefore;
        return Failure(NotWorking);
      }
      result := Success(working);
    }

    /** Closes a working group with no active leg left. */
    method CloseWorkingGroupIfEmpty(g: GroupId, reason: string) returns (closed: bool)
      modifies this`groups, this`legs
      ensures Rows() == CloseIfEmpty(old(Rows()), g, reason)
      ensures closed == (g in old(groups) && old(groups)[g].status == GroupWorking && !HasActiveLeg(old(Rows()), g))
    {
      if HasActiveLeg(Rows(), g) || g !in groups || groups[g].status != GroupWorking {
        return false;
      }
      groups := groups[g := ClosedGroup(groups[g], reason)];
      closed := true;
    }

    method RetireWorkingLeg(leg: LegId, status: LegStatus, reason: string) returns (retired: bool)
      requires status in {Cancelled, Expired}
      modifies this`groups, this`legs
      ensures var after := RetireLeg(old(Rows()), leg, status, reason);
              retired == after.Some? && Rows() == (if after.Some? then after.value else old(Rows()))
    {
      if leg !in legs || legs[leg].status != Working || legs[leg].group !in groups || groups[legs[leg].group].scope.user != legs[leg].user {
        return false;
      }
      var row := legs[leg];
      legs := legs[leg := row.(status := status, note := if status == Cancelled then NoNote else row.note)];
      var _ := CloseWorkingGroupIfEmpty(row.group, reason);
      retired := true;
    }

    method ExpireWorkingLeg(leg: LegId, now: Time) returns (expired: bool)
      modifies this`groups, this`legs
      ensures var after := ExpireLeg(old(Rows()), leg, now);
              expired == after.Some? && Rows() == (if after.Some? then after.value else old(Rows()))
    {
      expired := false;
      if leg in legs && legs[leg].expiresAt <= now {
        expired := RetireWorkingLeg(leg, Expired, "All bracket legs expired");
      }
    }

    method ExpireDueLegs(now: Time) returns (expired: nat)
      modifies this`groups, this`legs
      ensures Rows() == RetireAll(old(Rows()), DueLegs(old(Rows()), now), Expired, "All bracket legs expired")
      ensures expired == |DueLegs(old(Rows()), now)|
    {
      hide RetireAll, ExpireLeg, DueLegs;
      var reason := "All bracket legs expired";
      ghost var before := Rows();
      var candidates := DueLegs(Rows(), now);
      var rest := candidates;
      expired := 0;
      RetireNothing(before, Expired, reason);
      assert candidates - rest == {};
      while rest != {}
        invariant rest <= candidates == DueLegs(before, now)
        invariant Rows() == RetireAll(before, candidates - rest, Expired, reason)
        invariant expired == |candidates - rest|
        decreases |rest|
      {
        var l :| l in rest;
        ghost var done := candidates - rest;
        ExpireOneMore(before, done, l, now, reason);
        assert candidates - (rest - {l}) == done + {l};
        rest := rest - {l};
        var changed := ExpireWorkingLeg(l, now);
        if changed {
          expired := expired + 1;
        }
      }
      assert candidates - rest == candidates;
    }

    /** Gives a working line without a group a new status. */
    method SetLineStatus(l: LegId, status: LegStatus) returns (changed: bool)
      modifies this`lines
      ensures changed == (l in old(lines) && old(lines)[l].status == Working)
      ensures lines == if changed then old(lines)[l := old(lines)[l].(status := status)] else old(lines)
    {
      changed := l in lines && lines[l].status == Working;
      if changed { lines := lines[l := lines[l].(status := status)]; }
    }

    method SetLineStatuses(which: set<LegId>, status: LegStatus) returns (changed: set<LegId>)
      requires forall l :: l in which ==> l in lines && lines[l].status == Working
      modifies this`lines
      ensures changed == which && lines == WithStatus(old(lines), which, status)
    {
      hide WithStatus;
      ghost var before := lines;
      StatusNothing(before, status);
      var rest := which;
      changed := {};
      while rest != {}
        invariant rest + changed == which && rest !! changed
        invariant lines == WithStatus(before, changed, status)
        decreases |rest|
      {
        var l :| l in rest;
        StatusOneMore(before, changed, l, status);
        var done := SetLineStatus(l, status);
        rest := rest - {l};
        if done { changed := changed + {l}; }
      }
    }

    /**
     Retires every working leg and every working line without a group whose contract has settled, and
     closes the groups left empty. No row of one sort is looked at for a row of the other.
     */
    method ExpireSettled(now: Time) returns (expired: nat)
      modifies this`groups, this`legs, this`lines
      ensures Rows() == RetireAll(old(Rows()), DueLegs(old(Rows()), now), Expired, "All bracket legs expired")
      ensures lines == WithStatus(old(lines), DueLines(old(lines), now), Expired)
      ensures expired == |DueLegs(old(Rows()), now)| + |DueLines(old(lines), now)|
    {
      hide RetireAll;
      var legsExpired := ExpireDueLegs(now);
      var changed := SetLineStatuses(DueLines(lines, now), Expired);
      expired := legsExpired + |changed|;
    }

    /** Scales a working bracket down; never up, and never one that a fire has claimed. */
    method ShrinkGroup(g: GroupId, scope: Scope, held: int) returns (resized: bool)
      modifies this`groups, this`legs
      ensures var after := Shrink(old(Rows()), g, scope, held);
              resized == after.Some? && Rows() == (if after.Some? then after.value else old(Rows()))
    {
      if g !in groups || groups[g].scope.user != scope.user || groups[g].scope.provider != scope.provider ||
         groups[g].scope.mode != scope.mode || groups[g].scope.account != scope.account ||
         groups[g].status != GroupWorking || groups[g].protectedQuantity <= held {
        return false;
      }
      var working := WorkingLegs(Rows(), g);
      groups := groups[g := groups[g].(protectedQuantity := held)];
      SetQuantity(working, held);
      resized := true;
    }

    /** The guarded resize of one line without a group: never up. */
    method ResizeLine(l: LegId, account: Account, held: Holdings)
      requires l in lines && SweptLine(lines[l], account)
      modifies this`lines
      ensures lines == old(lines)[l := FittedLine(old(lines)[l], account, held)]
    {
      var contract := lines[l].contract;
      if contract in held && held[contract].Some? && held[contract].value < lines[l].quantity {
        lines := lines[l := lines[l].(quantity := held[contract].value)];
      }
    }

    method FitLines(account: Account, held: Holdings)
      modifies this`lines
      ensures lines == FittedLines(old(lines), account, held, old(lines).Keys)
    {
      hide FittedLine, FittedLines, SweptLine;
      ghost var before := lines;
      FitNothing(before, account, held);
      var working := set l | l in lines && SweptLine(lines[l], account);
      var rest := working;
      ghost var done: set<LegId> := {};
      while rest != {}
        invariant rest + done == working && rest !! done
        invariant lines == FittedLines(before, account, held, done)
        decreases |rest|
      {
        var l :| l in rest;
        FitOneMore(before, account, held, done, l);
        ResizeLine(l, account, held);
        rest, done := rest - {l}, done + {l};
      }
      FitRest(before, account, held, done);
    }

    /** First half of the sweep: every oversized bracket once, and every oversized target or stop without a group. */
    method ScaleDown(account: Account, held: Holdings)
      modifies this`groups, this`legs, this`lines
      ensures Rows() == ShrinkAll(old(Rows()), held, OversizedGroups(old(Rows()), account, held))
      ensures lines == FittedLines(old(lines), account, held, old(lines).Keys)
    {
      hide ShrinkAll, OversizedGroups, FittedLine;
      ScaleDownGroups(account, held);
      FitLines(account, held);
    }

    method ScaleDownGroups(account: Account, held: Holdings)
      modifies this`groups, this`legs
      ensures Rows() == ShrinkAll(old(Rows()), held, OversizedGroups(old(Rows()), account, held))
    {
      hide ShrinkAll, Shrink, SweptLeg, Oversized, NeedsScaling, OversizedGroups;
      ghost var before := Rows();
      var working := set l | l in legs && SweptLeg(Rows(), account, l);
      var rows, groupRows := legs, groups;
      var rest := working;
      var resized: set<GroupId> := {};
      ShrinkNothing(before, held);
      while rest != {}
        invariant rest <= working && rows == before.legs && groupRows == before.groups
        invariant forall l :: l in working <==> l in before.legs && SweptLeg(before, account, l)
        invariant Rows() == ShrinkAll(before, held, resized)
        invariant resized <= OversizedGroups(before, account, held)
        invariant forall l :: l in working && l !in rest && NeedsScaling(before, account, held, l) ==> before.legs[l].group in resized
        decreases |rest|
      {
        var l :| l in rest;
        rest := rest - {l};
        OversizedLeg(before, account, held, l);
        var g := rows[l].group;
        var contract := groupRows[g].scope.contract;
        if contract in held && held[contract].Some? && held[contract].value < rows[l].quantity && g !in resized {
          ShrinkOneMore(before, held, resized, g);
          var changed := ShrinkGroup(g, groupRows[g].scope, held[contract].value);
          if changed { resized := resized + {g}; }
        }
      }
      ScaledIsSwept(before, account, held);
      AllScaledDown(before, account, held, resized);
    }

    /** Second half: the aged legs with nothing left to protect, one transaction each. */
    method CancelOrphans(account: Account, held: Holdings, aged: set<LegId>) returns (cancelled: set<LegId>)
      modifies this`groups, this`legs
      ensures cancelled == Orphans(old(Rows()), account, held, aged)
      ensures Rows() == RetireAll(old(Rows()), cancelled, Cancelled, "All bracket legs orphaned from the broker position")
    {
      hide RetireAll, RetireLeg, Orphans;
      var reason := "All bracket legs orphaned from the broker position";
      ghost var before := Rows();
      var orphans := Orphans(Rows(), account, held, aged);
      OrphansAreWorking(before, account, held, aged);
      var rest := orphans;
      cancelled := {};
      RetireNothing(before, Cancelled, reason);
      while rest != {}
        invariant rest <= orphans && cancelled == orphans - rest
        invariant Rows() == RetireAll(before, cancelled, Cancelled, reason)
        decreases |rest|
      {
        var l :| l in rest;
        rest := rest - {l};
        RetireOneMore(before, cancelled, l, Cancelled, reason);
        var changed := RetireWorkingLeg(l, Cancelled, reason);
        if changed { cancelled := cancelled + {l}; }
      }
    }

    /**
     Fits an account's brackets, and the user's targets and stops without a group, to the positions it
     holds: scales oversized ones down, then retires the aged ones of contracts of which nothing is held.
     */
    method CancelOrphanedBrackets(account: Account, held: Holdings, aged: set<LegId>) returns (cancelled: set<LegId>)
      modifies this`groups, this`legs, this`lines
      ensures Rows() == Swept(old(Rows()), account, held, aged)
      ensures lines == SweptLines(old(lines), account, held, aged)
      ensures cancelled == Orphans(old(Rows()), account, held, aged) + OrphanLines(old(lines), account, held, aged)
    {
      hide RetireAll, ShrinkAll, Orphans, OversizedGroups, FittedLines;
      ShrinkingMakesNoOrphans(Rows(), account, held, aged, OversizedGroups(Rows(), account, held));
      FittingMakesNoOrphans(lines, account, held, aged);
      ScaleDown(account, held);
      var orphanLegs := CancelOrphans(account, held, aged);
      var orphanLines := SetLineStatuses(OrphanLines(lines, account, held, aged), Cancelled);
      cancelled := orphanLegs + orphanLines;
    }

    // -------------------------------------------------------------------------
    // Fire transactions
    // -------------------------------------------------------------------------

    method RetireMany(which: set<LegId>, fire: LegId)
      requires which <= legs.Keys
      modifies this`groups, this`legs
      ensures legs == RetireSiblings(old(legs), which, fire) && groups == old(groups) && trades == old(trades)
    {
      var rest := which;
      while rest != {}
        invariant rest <= which && legs == RetireSiblings(old(legs), which - rest, fire)
        invariant groups == old(groups) && trades == old(trades)
        decreases |rest|
      {
        var l :| l in rest;
        rest := rest - {l};
        legs := legs[l := legs[l].(status := Cancelled, triggeredAt := None, note := RetiredBy(fire))];
      }
      assert which - rest == which;
    }

    method RestoreMany(which: set<LegId>)
      requires which <= legs.Keys
      modifies this`groups, this`legs
      ensures legs == RestoreSiblings(old(legs), which) && groups == old(groups) && trades == old(trades)
    {
      var rest := which;
      while rest != {}
        invariant rest <= which && legs == RestoreSiblings(old(legs), which - rest)
        invariant groups == old(groups) && trades == old(trades)
        decreases |rest|
      {
        var l :| l in rest;
        rest := rest - {l};
        legs := legs[l := legs[l].(status := Working, triggeredAt := None, note := NoNote)];
      }
      assert which - rest == which;
    }

    method DropMany(which: set<LegId>)
      requires which <= legs.Keys
      modifies this`groups, this`legs
      ensures legs == DropSiblings(old(legs), which) && groups == old(groups) && trades == old(trades)
    {
      var rest := which;
      while rest != {}
        invariant rest <= which && legs == DropSiblings(old(legs), which - rest)
        invariant groups == old(groups) && trades == old(trades)
        decreases |rest|
      {
        var l :| l in rest;
        rest := rest - {l};
        legs := legs[l := legs[l].(status := Cancelled, note := NoNote)];
      }
      assert which - rest == which;
    }

    /** Group first, then the fire leg, then the siblings; losing the leg gives the group back. */
    method ClaimForFireWithSiblings(leg: LegId, worker: WorkerId, now: Time) returns (claim: Option<(set<LegId>, int)>)
      modifies this`groups, this`legs
      ensures match Claim(old(Rows()), leg, worker, now)
              case None => claim.None? && Rows() == old(Rows())
              case Some(claimed) => claim == Some((claimed.retired, claimed.quantity)) && Rows() == claimed.db
    {
      if leg !in legs || legs[leg].group !in groups {
        return None;
      }
      var row := legs[leg];
      var group := groups[row.group];
      if group.scope.user != row.user || group.scope.mode != row.mode {
        return None;
      }
      var unresolved := HasUnresolvedCloseReservation(group.scope, row.group);
      if unresolved || group.status != GroupWorking {
        return None;
      }
      var groupsBefore := groups;
      groups := groups[row.group := group.(status := GroupPendingFire, fireLeg := Some(leg), leaseOwner := Some(worker),
                                           leaseExpires := Some(now + GROUP_FIRE_LEASE_MS), note := None)];
      if row.status != Working {
        groups := groupsBefore;
        return None;
      }
      var siblings := WorkingSiblings(Rows(), leg);
      legs := legs[leg := row.(status := PendingFire, triggeredAt := Some(now), note := NoNote)];
      RetireMany(siblings, leg);
      claim := Some((siblings, groups[row.group].protectedQuantity));
    }

    /** Whether every sibling to be restored still carries the leg's retirement marker. */
    method AllRestorable(leg: LegId, retired: set<LegId>) returns (all: bool)
      requires leg in legs
      ensures all <==> !exists l :: l in retired && !Restorable(Rows(), leg, l)
      ensures all ==> retired <= legs.Keys
    {
      hide Restorable;
      var restorable := set l | l in retired && Restorable(Rows(), leg, l);
      all := restorable == retired;
      assert !all ==> exists l :: l in retired && l !in restorable;
      assert forall l :: l in retired && Restorable(Rows(), leg, l) ==> l in legs by { RestorableIsThere(Rows(), leg, retired); }
    }

    /** Leg, then siblings, then the group's release under the lease; any lost guard undoes the lot. */
    method SettleGroupedNoSend(leg: LegId, retired: set<LegId>, status: LegStatus, note: Note, worker: WorkerId, reason: string)
      returns (settled: bool)
      requires !note.RetiredBy?
      modifies this`groups, this`legs
      ensures var after := SettleNoSend(old(Rows()), leg, retired, status, note, worker, reason);
              settled == after.Some? && Rows() == (if after.Some? then after.value else old(Rows()))
    {
      hide CloseIfEmpty, Restorable;
      if leg !in legs || legs[leg].group !in groups || groups[legs[leg].group].scope.user != legs[leg].user {
        return false;
      }
      var g := legs[leg].group;
      var restorable := AllRestorable(leg, retired);
      if !restorable || legs[leg].status !in {PendingFire, Triggered} {
        return false;
      }
      var groupsBefore, legsBefore := groups, legs;
      legs := legs[leg := SettledLeg(legs[leg], status, note)];
      RestoreMany(retired);
      if !(groups[g].status == GroupPendingFire && groups[g].fireLeg == Some(leg) && groups[g].leaseOwner == Some(worker)) {
        groups, legs := groupsBefore, legsBefore;
        return false;
      }
      groups := groups[g := groups[g].(status := GroupWorking, fireLeg := None, leaseOwner := None, leaseExpires := None,
                                       note := if note.Message? then Some(note.text) else None)];
      var _ := CloseWorkingGroupIfEmpty(g, reason);
      settled := true;
    }

    /** Recovery takes a claim over: one guarded write, which a lease that still stands does not match. */
    method TakeOverExpired(g: GroupId, worker: WorkerId, now: Time) returns (claimed: bool)
      modifies this`groups
      ensures var after := TakeOver(old(Rows()), g, worker, now);
              claimed == after.Some? && Rows() == (if after.Some? then after.value else old(Rows()))
      ensures claimed <==> g in old(groups) && old(groups[g]).status == GroupPendingFire
                           && old(groups[g]).leaseExpires.Some? && old(groups[g]).leaseExpires.value < now
    {
      if g !in groups || groups[g].status != GroupPendingFire || groups[g].leaseExpires.None? || groups[g].leaseExpires.value >= now {
        return false;
      }
      groups := groups[g := groups[g].(leaseOwner := Some(worker), leaseExpires := Some(now + GROUP_FIRE_LEASE_MS))];
      claimed := true;
    }

    /** Leg, then siblings, then the group's end under the lease; a lost lease undoes the lot. */
    method FinishRecoveredGroup(leg: LegId, order: OrderId, worker: WorkerId) returns (finished: bool)
      modifies this`groups, this`legs
      ensures var after := Finish(old(Rows()), leg, order, worker);
              finished == after.Some? && Rows() == (if after.Some? then after.value else old(Rows()))
    {
      if leg !in legs || legs[leg].group !in groups || legs[leg].status !in {PendingFire, Triggered} {
        return false;
      }
      var g := legs[leg].group;
      var groupsBefore, legsBefore := groups, legs;
      var siblings := FinishedSiblings(Rows(), leg);
      legs := legs[leg := legs[leg].(status := Triggered, brokerOrder := Some(order))];
      DropMany(siblings);
      if !HoldsClaim(Rows(), leg, worker) {
        groups, legs := groupsBefore, legsBefore;
        return false;
      }
      groups := groups[g := groups[g].(status := GroupFired, leaseOwner := None, leaseExpires := None, note := None)];
      finished := true;
    }

    /** Makes the fire leg non-working, then retires whatever sibling still works. */
    method PrepareRecoveredClaim(leg: LegId, g: GroupId, now: Time) returns (siblings: Option<set<LegId>>)
      modifies this`groups, this`legs
      ensures match Prepare(old(Rows()), leg, g, now)
              case None => siblings.None? && Rows() == old(Rows())
              case Some(prepared) => siblings == Some(prepared.siblings) && Rows() == prepared.db
    {
      if leg !in legs || legs[leg].group != g {
        return None;
      }
      var prior := legs[leg];
      if prior.status !in {Working, PendingFire, Triggered} {
        return None;
      }
      var working := WorkingSiblings(Rows(), leg);
      var marked := set l | l in legs && l != leg && legs[l].group == g && legs[l].user == prior.user &&
                            legs[l].mode == prior.mode && legs[l].status == Cancelled && legs[l].note == RetiredBy(leg);
      ghost var rowsBefore := Rows();
      if prior.status == Working {
        legs := legs[leg := prior.(status := PendingFire, triggeredAt := Some(now), note := NoNote)];
      } else {
        assert legs[leg := prior] == legs;
      }
      RetireMany(working, leg);
      siblings := Some(working + marked);
      assert Prepare(rowsBefore, leg, g, now).value.siblings == working + marked;
    }
  }
}
