/**
 What the two sweeps do to the rows as a whole: expiring settled lines, and fitting or retiring the
 brackets of an account to the positions it holds.
 */
module BracketSweeps {
  import opened Wrappers
  import opened BracketRules

  function ClosedGroup(group: Group, reason: string): Group {
    group.(status := GroupClosed, fireLeg := None, leaseOwner := None, leaseExpires := None, note := Some(reason))
  }

  function RetiredRow(leg: Leg, status: LegStatus): Leg {
    leg.(status := status, note := if status == Cancelled then NoNote else leg.note)
  }

  /** The rows after these working legs, and no others, have been retired, and the groups left without a leg closed. */
  function RetireAll(db: Db, which: set<LegId>, status: LegStatus, reason: string): Db {
    var legs := map l | l in db.legs :: if l in which then RetiredRow(db.legs[l], status) else db.legs[l];
    var after := db.(legs := legs);
    db.(legs := legs,
        groups := map g | g in db.groups ::
          if (exists l :: l in which && l in db.legs && db.legs[l].group == g) && db.groups[g].status == GroupWorking && !HasActiveLeg(after, g)
          then ClosedGroup(db.groups[g], reason)
          else db.groups[g])
  }

  predicate AllRetirable(db: Db, which: set<LegId>) {
    forall l :: l in which ==> Retirable(db, l)
  }

  /** A group with a leg still to be retired has not been closed yet. */
  lemma OwnGroupStillOpen(db: Db, done: set<LegId>, l: LegId, status: LegStatus, reason: string)
    requires l in db.legs && db.legs[l].status == Working && l !in done && db.legs[l].group in db.groups
    ensures RetireAll(db, done, status, reason).groups[db.legs[l].group] == db.groups[db.legs[l].group]
  {
    var before := RetireAll(db, done, status, reason);
    var after := db.(legs := before.legs);
    assert HasActiveLeg(after, db.legs[l].group) by { assert after.legs[l].status == Working; }
  }

  /** After leg l, its own group is what closing it when empty makes of it. */
  lemma OwnGroupClosesWhenEmpty(db: Db, done: set<LegId>, l: LegId, status: LegStatus, reason: string)
    requires l in db.legs && db.legs[l].group in db.groups
    ensures var g := db.legs[l].group;
            var legs := RetireAll(db, done + {l}, status, reason).legs;
            RetireAll(db, done + {l}, status, reason).groups[g] == CloseIfEmpty(db.(legs := legs), g, reason).groups[g]
  {
    assert l in done + {l};
  }

  lemma RetireNothing(db: Db, status: LegStatus, reason: string)
    ensures RetireAll(db, {}, status, reason) == db
  {
    assert RetireAll(db, {}, status, reason).legs == db.legs;
    assert RetireAll(db, {}, status, reason).groups == db.groups;
  }

  /** Retiring one more leg is one more transaction. */
  lemma RetireOneMore(db: Db, done: set<LegId>, l: LegId, status: LegStatus, reason: string)
    requires AllRetirable(db, done) && Retirable(db, l) && l !in done && status in {Cancelled, Expired}
    ensures RetireLeg(RetireAll(db, done, status, reason), l, status, reason) == Some(RetireAll(db, done + {l}, status, reason))
  {
    var before, after := RetireAll(db, done, status, reason), RetireAll(db, done + {l}, status, reason);
    var g := db.legs[l].group;
    var marked := before.(legs := before.legs[l := RetiredRow(before.legs[l], status)]);
    assert marked.legs == after.legs;
    var closed := CloseIfEmpty(marked, g, reason);
    OwnGroupStillOpen(db, done, l, status, reason);
    OwnGroupClosesWhenEmpty(db, done, l, status, reason);
    SameGroupRowSameClosing(marked, db.(legs := after.legs), g, reason);
    forall h | h in db.groups && h != g
      ensures after.groups[h] == closed.groups[h]
    {
      OtherGroupUnmoved(db, done, l, h, status, reason);
    }
    assert closed.groups == after.groups;
  }

  lemma SameGroupRowSameClosing(a: Db, b: Db, g: GroupId, reason: string)
    requires g in a.groups && g in b.groups && a.groups[g] == b.groups[g] && a.legs == b.legs
    ensures CloseIfEmpty(a, g, reason).groups[g] == CloseIfEmpty(b, g, reason).groups[g]
    ensures forall h :: h in a.groups && h != g ==> CloseIfEmpty(a, g, reason).groups[h] == a.groups[h]
    ensures CloseIfEmpty(a, g, reason).groups.Keys == a.groups.Keys
  {
    assert HasActiveLeg(a, g) == HasActiveLeg(b, g);
  }

  lemma SameLegsSameActivity(a: Db, b: Db, h: GroupId)
    requires a.legs.Keys == b.legs.Keys
    requires forall k :: k in a.legs && (a.legs[k].group == h || b.legs[k].group == h) ==> a.legs[k] == b.legs[k]
    ensures HasActiveLeg(a, h) == HasActiveLeg(b, h)
  {
  }

  lemma OtherGroupUnmoved(db: Db, done: set<LegId>, l: LegId, h: GroupId, status: LegStatus, reason: string)
    requires l in db.legs && h != db.legs[l].group && h in db.groups && done <= db.legs.Keys
    ensures RetireAll(db, done + {l}, status, reason).groups[h] == RetireAll(db, done, status, reason).groups[h]
  {
    hide HasActiveLeg;
    var before, after := RetireAll(db, done, status, reason), RetireAll(db, done + {l}, status, reason);
    SameLegsSameActivity(db.(legs := before.legs), db.(legs := after.legs), h);
    assert (exists k :: k in done + {l} && k in db.legs && db.legs[k].group == h) <==>
           (exists k :: k in done && k in db.legs && db.legs[k].group == h);
  }

  // ---------------------------------------------------------------------------
  // Expiry
  // ---------------------------------------------------------------------------

  /** Legs an expiry sweep retires. */
  function DueLegs(db: Db, now: Time): set<LegId> {
    set l | l in db.legs && Retirable(db, l) && db.legs[l].expiresAt <= now
  }

  lemma ExpireOneMore(db: Db, done: set<LegId>, l: LegId, now: Time, reason: string)
    requires done <= DueLegs(db, now) && l in DueLegs(db, now) && l !in done && reason == "All bracket legs expired"
    ensures ExpireLeg(RetireAll(db, done, Expired, reason), l, now) == Some(RetireAll(db, done + {l}, Expired, reason))
  {
    RetireOneMore(db, done, l, Expired, reason);
  }

  // ---------------------------------------------------------------------------
  // Fitting an account's brackets to its positions
  // ---------------------------------------------------------------------------

  /** Positions by contract: the quantity held, or only that something is held. */
  type Holdings = map<string, Option<int>>

  datatype Account = Account(user: UserId, provider: Provider, mode: Mode, account: string)

  predicate InAccount(scope: Scope, account: Account) {
    scope.user == account.user && scope.provider == account.provider && scope.mode == account.mode && scope.account == account.account
  }

  function ScopedGroups(db: Db, account: Account): set<GroupId> {
    set g | g in db.groups && db.groups[g].status == GroupWorking && InAccount(db.groups[g].scope, account)
  }

  /** A working leg of the account's working brackets. */
  predicate SweptLeg(db: Db, account: Account, l: LegId) {
    && l in db.legs && db.legs[l].status == Working && db.legs[l].user == account.user && db.legs[l].mode == account.mode
    && db.legs[l].group in ScopedGroups(db, account)
  }

  /** The leg asks for more than the account holds of its contract. */
  predicate Oversized(db: Db, account: Account, held: Holdings, l: LegId) {
    && SweptLeg(db, account, l)
    && var contract := db.groups[db.legs[l].group].scope.contract;
    contract in held && held[contract].Some? && held[contract].value < db.legs[l].quantity
  }

  function HeldFor(db: Db, held: Holdings, g: GroupId): int {
    if g in db.groups && db.groups[g].scope.contract in held && held[db.groups[g].scope.contract].Some?
    then held[db.groups[g].scope.contract].value else 0
  }

  /** Its bracket has to be scaled down: the protected quantity is too large as well. */
  predicate NeedsScaling(db: Db, account: Account, held: Holdings, l: LegId) {
    Oversized(db, account, held, l) && db.groups[db.legs[l].group].protectedQuantity > HeldFor(db, held, db.legs[l].group)
  }

  function OversizedGroups(db: Db, account: Account, held: Holdings): set<GroupId> {
    set l | l in db.legs && NeedsScaling(db, account, held, l) :: db.legs[l].group
  }

  /** The rows after these brackets, and no others, have been scaled down to what is held. */
  function ShrinkAll(db: Db, held: Holdings, which: set<GroupId>): Db {
    db.(groups := map g | g in db.groups ::
          if g in which then db.groups[g].(protectedQuantity := HeldFor(db, held, g)) else db.groups[g],
        legs := map l | l in db.legs ::
          if db.legs[l].group in which && l in WorkingLegs(db, db.legs[l].group)
          then db.legs[l].(quantity := HeldFor(db, held, db.legs[l].group)) else db.legs[l])
  }

  /** A scaled-down set that misses no oversized leg is all of them. */
  lemma AllScaledDown(db: Db, account: Account, held: Holdings, done: set<GroupId>)
    requires done <= OversizedGroups(db, account, held)
    requires forall l :: l in db.legs && NeedsScaling(db, account, held, l) ==> db.legs[l].group in done
    ensures done == OversizedGroups(db, account, held)
  {
  }

  lemma ScaledIsSwept(db: Db, account: Account, held: Holdings)
    ensures forall l :: l in db.legs && NeedsScaling(db, account, held, l) ==> SweptLeg(db, account, l)
  {
  }

  lemma OversizedLeg(db: Db, account: Account, held: Holdings, l: LegId)
    requires l in db.legs && SweptLeg(db, account, l)
    ensures var g := db.legs[l].group;
            && g in db.groups && db.groups[g].status == GroupWorking
            && (Oversized(db, account, held, l) <==>
                  db.groups[g].scope.contract in held && held[db.groups[g].scope.contract].Some? && HeldFor(db, held, g) < db.legs[l].quantity)
            && (NeedsScaling(db, account, held, l) <==>
                  Oversized(db, account, held, l) && db.groups[g].protectedQuantity > HeldFor(db, held, g))
            && (NeedsScaling(db, account, held, l) ==> g in OversizedGroups(db, account, held))
  {
  }

  lemma ShrinkNothing(db: Db, held: Holdings)
    ensures ShrinkAll(db, held, {}) == db
  {
    assert ShrinkAll(db, held, {}).legs == db.legs;
    assert ShrinkAll(db, held, {}).groups == db.groups;
  }

  /** Scaling one more bracket down is one more transaction; it does nothing to a bracket that is small enough. */
  lemma ShrinkOneMore(db: Db, held: Holdings, done: set<GroupId>, g: GroupId)
    requires g in db.groups && g !in done && db.groups[g].status == GroupWorking
    ensures var before := ShrinkAll(db, held, done);
            Shrink(before, g, db.groups[g].scope, HeldFor(db, held, g)) ==
            if db.groups[g].protectedQuantity > HeldFor(db, held, g) then Some(ShrinkAll(db, held, done + {g})) else None
  {
    var before, after := ShrinkAll(db, held, done), ShrinkAll(db, held, done + {g});
    assert WorkingLegs(before, g) == WorkingLegs(db, g);
    var h := HeldFor(db, held, g);
    assert before.groups[g := before.groups[g].(protectedQuantity := h)] == after.groups;
    assert WithQuantity(before.legs, WorkingLegs(before, g), h) == after.legs;
  }

  /** Old enough and nothing held of the contract: nothing is left to protect. */
  function Orphans(db: Db, account: Account, held: Holdings, aged: set<LegId>): set<LegId> {
    set l | l in db.legs && SweptLeg(db, account, l) && l in aged && db.groups[db.legs[l].group].scope.contract !in held
  }

  lemma OrphansAreWorking(db: Db, account: Account, held: Holdings, aged: set<LegId>)
    ensures AllRetirable(db, Orphans(db, account, held, aged))
  {
  }

  lemma ShrinkingMakesNoOrphans(db: Db, account: Account, held: Holdings, aged: set<LegId>, which: set<GroupId>)
    ensures Orphans(ShrinkAll(db, held, which), account, held, aged) == Orphans(db, account, held, aged)
    ensures forall l :: l in db.legs ==> ShrinkAll(db, held, which).legs[l].group == db.legs[l].group
    ensures ShrinkAll(db, held, which).legs.Keys == db.legs.Keys && ShrinkAll(db, held, which).groups.Keys == db.groups.Keys
  {
    var after := ShrinkAll(db, held, which);
    assert ScopedGroups(after, account) == ScopedGroups(db, account);
  }

  /** Everything the sweep does. */
  function Swept(db: Db, account: Account, held: Holdings, aged: set<LegId>): Db {
    var fitted := ShrinkAll(db, held, OversizedGroups(db, account, held));
    RetireAll(fitted, Orphans(db, account, held, aged), Cancelled, "All bracket legs orphaned from the broker position")
  }

  // ---------------------------------------------------------------------------
  // Lines without a group
  // ---------------------------------------------------------------------------

  datatype LineKind = LimitLine | TargetLine | StopLine

  /** A chart line that belongs to no group. It names its contract, and no account. */
  datatype Line = Line(user: UserId, mode: Mode, contract: string, kind: LineKind, quantity: int, status: LegStatus, expiresAt: Time)

  type Lines = map<LegId, Line>

  function DueLines(lines: Lines, now: Time): set<LegId> {
    set l | l in lines && lines[l].status == Working && lines[l].expiresAt <= now
  }

  /** The lines after these, and no others, have got a new status. */
  function WithStatus(lines: Lines, which: set<LegId>, status: LegStatus): Lines {
    map l | l in lines :: if l in which then lines[l].(status := status) else lines[l]
  }

  lemma StatusNothing(lines: Lines, status: LegStatus)
    ensures WithStatus(lines, {}, status) == lines
  {
  }

  lemma StatusOneMore(lines: Lines, done: set<LegId>, l: LegId, status: LegStatus)
    requires l in lines && l !in done
    ensures var before := WithStatus(lines, done, status);
            l in before && before[l] == lines[l] && WithStatus(lines, done + {l}, status) == before[l := lines[l].(status := status)]
  {
    assert WithStatus(lines, done + {l}, status) == WithStatus(lines, done, status)[l := lines[l].(status := status)];
  }

  /** A working target or stop of the user in this environment, whatever the account. */
  predicate SweptLine(line: Line, account: Account) {
    line.status == Working && !line.kind.LimitLine? && line.user == account.user && line.mode == account.mode
  }

  function FittedLine(line: Line, account: Account, held: Holdings): Line {
    if SweptLine(line, account) && line.contract in held && held[line.contract].Some? && held[line.contract].value < line.quantity
    then line.(quantity := held[line.contract].value) else line
  }

  function FittedLines(lines: Lines, account: Account, held: Holdings, which: set<LegId>): Lines {
    map l | l in lines :: if l in which then FittedLine(lines[l], account, held) else lines[l]
  }

  function OrphanLines(lines: Lines, account: Account, held: Holdings, aged: set<LegId>): set<LegId> {
    set l | l in lines && SweptLine(lines[l], account) && l in aged && lines[l].contract !in held
  }

  /** What the sweep does to the lines without a group. */
  function SweptLines(lines: Lines, account: Account, held: Holdings, aged: set<LegId>): Lines {
    WithStatus(FittedLines(lines, account, held, lines.Keys), OrphanLines(lines, account, held, aged), Cancelled)
  }

  lemma FitNothing(lines: Lines, account: Account, held: Holdings)
    ensures FittedLines(lines, account, held, {}) == lines
  {
  }

  lemma FitOneMore(lines: Lines, account: Account, held: Holdings, done: set<LegId>, l: LegId)
    requires l in lines && l !in done
    ensures var before := FittedLines(lines, account, held, done);
            && l in before && before[l] == lines[l]
            && FittedLines(lines, account, held, done + {l}) == before[l := FittedLine(lines[l], account, held)]
  {
    hide FittedLine;
    var before := FittedLines(lines, account, held, done);
    assert FittedLines(lines, account, held, done + {l}) == before[l := FittedLine(lines[l], account, held)];
  }

  /** Fitting the swept lines is fitting all of them. */
  lemma FitRest(lines: Lines, account: Account, held: Holdings, done: set<LegId>)
    requires done <= lines.Keys && forall l :: l in lines && l !in done ==> !SweptLine(lines[l], account)
    ensures FittedLines(lines, account, held, done) == FittedLines(lines, account, held, lines.Keys)
  {
  }

  lemma FittingMakesNoOrphans(lines: Lines, account: Account, held: Holdings, aged: set<LegId>)
    ensures OrphanLines(FittedLines(lines, account, held, lines.Keys), account, held, aged) == OrphanLines(lines, account, held, aged)
  {
  }
}
