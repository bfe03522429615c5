/**
 The rows behind a protective bracket and the effect of every database transaction of
 ChartOrdersService on them. A transaction that throws rolls back, so each rule returns
 either the whole new database or nothing.
 */
module BracketRules {
  import opened Wrappers

  type LegId = nat
  type GroupId = nat
  type WorkerId = nat
  type OrderId = string
  type UserId = string
  type Time = int

  const GROUP_FIRE_LEASE_MS: int := 30_000

  datatype Mode = Live | Practice
  datatype Provider = Webull | Alpaca | SnapTrade
  datatype Side = Buy | Sell
  datatype LegKind = Target | Stop

  /** The position a bracket protects: one broker account, one contract, one closing side. */
  datatype Scope = Scope(user: UserId, provider: Provider, mode: Mode, account: string, contract: string, side: Side)

  datatype LegStatus = Working | PendingFire | Triggered | Cancelled | Failed | Expired
  datatype GroupStatus = GroupWorking | GroupPendingFire | GroupFired | GroupClosed | GroupFailed

  /** The lastError column: empty, the marker left on a sibling retired by a fire, or free text. */
  datatype Note = NoNote | RetiredBy(fireLeg: LegId) | Message(text: string)

  datatype Leg = Leg(user: UserId, mode: Mode, group: GroupId, kind: LegKind, quantity: int, status: LegStatus,
                     triggeredAt: Option<Time>, brokerOrder: Option<OrderId>, note: Note, expiresAt: Time)

  datatype Group = Group(scope: Scope, status: GroupStatus, protectedQuantity: int, fireLeg: Option<LegId>,
                         leaseOwner: Option<WorkerId>, leaseExpires: Option<Time>, createdAt: Time, note: Option<string>)

  datatype TradeStatus = Submitted | PartiallyFilled | Filled | BrokerCancelled | BrokerRejected

  /** A persisted broker order, found by either of its two identifiers. */
  datatype Trade = Trade(user: UserId, provider: Provider, mode: Mode, account: string,
                         brokerId: Option<OrderId>, clientId: Option<OrderId>, status: TradeStatus)

  datatype Db = Db(groups: map<GroupId, Group>, legs: map<LegId, Leg>, trades: seq<Trade>)

  predicate IsActive(status: LegStatus) {
    status == Working || status == PendingFire || status == Triggered
  }

  predicate InGroup(db: Db, g: GroupId, l: LegId) {
    l in db.legs && db.legs[l].group == g
  }

  function WorkingLegs(db: Db, g: GroupId): set<LegId> {
    set l | l in db.legs && db.legs[l].group == g && db.legs[l].status == Working
  }

  predicate HasActiveLeg(db: Db, g: GroupId) {
    exists l :: l in db.legs && db.legs[l].group == g && IsActive(db.legs[l].status)
  }

  // ---------------------------------------------------------------------------
  // Reservation of a position's close path
  // ---------------------------------------------------------------------------

  predicate TradeMatches(trade: Trade, scope: Scope, order: OrderId) {
    && trade.user == scope.user && trade.provider == scope.provider
    && trade.mode == scope.mode && trade.account == scope.account
    && (trade.brokerId == Some(order) || trade.clientId == Some(order))
  }

  /** Broker-terminal: at least one row is known for the order and every known row is terminal. */
  predicate OrderTerminal(trades: seq<Trade>, scope: Scope, order: OrderId) {
    && (exists i :: 0 <= i < |trades| && TradeMatches(trades[i], scope, order))
    && (forall i :: 0 <= i < |trades| && TradeMatches(trades[i], scope, order) ==>
          trades[i].status in {Filled, BrokerCancelled, BrokerRejected})
  }

  predicate CloseSettled(db: Db, group: Group) {
    && group.fireLeg.Some?
    && group.fireLeg.value in db.legs
    && db.legs[group.fireLeg.value].brokerOrder.Some?
    && OrderTerminal(db.trades, group.scope, db.legs[group.fireLeg.value].brokerOrder.value)
  }

  /** A group reserves its position's close path while a close may still be in flight. */
  predicate Reserves(db: Db, group: Group) {
    || group.status == GroupPendingFire
    || (group.status == GroupFired && !CloseSettled(db, group))
  }

  predicate UnresolvedClose(db: Db, scope: Scope, exclude: GroupId) {
    exists g :: g in db.groups && g != exclude && db.groups[g].scope == scope && Reserves(db, db.groups[g])
  }

  // ---------------------------------------------------------------------------
  // Arming, resizing and retiring legs
  // ---------------------------------------------------------------------------

  datatype ArmError = NotFound | ScopeMismatch | GroupClosedError | CloseInFlight | QuantityMismatch
                    | DuplicateKind | NotWorking

  datatype ArmRequest = ArmRequest(scope: Scope, kind: LegKind, quantity: int, requested: GroupId, expiresAt: Time)

  /** The earliest working group of the scope, when there is one. */
  ghost predicate IsCanonical(db: Db, scope: Scope, canonical: Option<GroupId>) {
    match canonical
    case None =>
      forall g :: g in db.groups ==> !(db.groups[g].scope == scope && db.groups[g].status == GroupWorking)
    case Some(c) =>
      && c in db.groups && db.groups[c].scope == scope && db.groups[c].status == GroupWorking
      && forall g :: g in db.groups && db.groups[g].scope == scope && db.groups[g].status == GroupWorking ==>
                       db.groups[c].createdAt <= db.groups[g].createdAt
  }

  /** The leg of the given kind in the group, when there is one. */
  ghost predicate IsLegOfKind(db: Db, g: GroupId, kind: LegKind, leg: Option<LegId>) {
    match leg
    case None => forall l :: l in db.legs ==> !(db.legs[l].group == g && db.legs[l].kind == kind)
    case Some(l) => l in db.legs && db.legs[l].group == g && db.legs[l].kind == kind
  }

  function OpenGroup(scope: Scope, quantity: int, createdAt: Time): Group {
    Group(scope, GroupWorking, quantity, None, None, None, createdAt, None)
  }

  function EnsureGroup(db: Db, req: ArmRequest, canonical: Option<GroupId>, now: Time): Result<(Db, GroupId), ArmError> {
    var known := req.requested in db.groups;
    if known && db.groups[req.requested].scope.user != req.scope.user then Failure(NotFound)
    else if known && db.groups[req.requested].scope != req.scope then Failure(ScopeMismatch)
    else if known && db.groups[req.requested].status !in {GroupWorking, GroupClosed} then Failure(GroupClosedError)
    else if UnresolvedClose(db, req.scope, req.requested) then Failure(CloseInFlight)
    else if canonical.Some? then
      if canonical.value !in db.groups || db.groups[canonical.value].protectedQuantity != req.quantity
      then Failure(QuantityMismatch)
      else Success((db, canonical.value))
    else if !known then
      Success((db.(groups := db.groups[req.requested := OpenGroup(req.scope, req.quantity, now)]), req.requested))
    else if db.groups[req.requested].status != GroupClosed then Failure(DuplicateKind)
    else if HasActiveLeg(db, req.requested) then Failure(GroupClosedError)
    else
      var reopened := OpenGroup(req.scope, req.quantity, db.groups[req.requested].createdAt);
      Success((db.(groups := db.groups[req.requested := reopened]), req.requested))
  }

  function ArmedLeg(req: ArmRequest, g: GroupId): Leg {
    Leg(req.scope.user, req.scope.mode, g, req.kind, req.quantity, Working, None, None, NoNote, req.expiresAt)
  }

  /** Inserts a leg, or re-arms the failed or cancelled leg of the same kind under its permanent id. */
  function ArmLeg(db: Db, req: ArmRequest, g: GroupId, existing: Option<LegId>, newId: LegId): Result<(Db, LegId), ArmError> {
    match existing
    case None => Success((db.(legs := db.legs[newId := ArmedLeg(req, g)]), newId))
    case Some(l) =>
      if l !in db.legs || db.legs[l].status !in {Failed, Cancelled} then Failure(DuplicateKind)
      else Success((db.(legs := db.legs[l := ArmedLeg(req, g)]), l))
  }

  function Arm(db: Db, req: ArmRequest, canonical: Option<GroupId>, existing: Option<LegId>, newId: LegId, now: Time)
    : Result<(Db, LegId), ArmError>
  {
    match EnsureGroup(db, req, canonical, now)
    case Failure(e) => Failure(e)
    case Success(grouped) => ArmLeg(grouped.0, req, grouped.1, existing, newId)
  }

  function WithQuantity(legs: map<LegId, Leg>, which: set<LegId>, quantity: int): map<LegId, Leg> {
    map l | l in legs :: if l in which then legs[l].(quantity := quantity) else legs[l]
  }

  function Resize(db: Db, user: UserId, leg: LegId, quantity: int): Result<Db, ArmError> {
    if leg !in db.legs || db.legs[leg].user != user then Failure(NotFound)
    else
      var g := db.legs[leg].group;
      if g !in db.groups || db.groups[g].scope.user != user then Failure(NotFound)
      else if db.groups[g].status != GroupWorking then Failure(GroupClosedError)
      else if db.legs[leg].status != Working then Failure(NotWorking)
      else Success(db.(groups := db.groups[g := db.groups[g].(protectedQuantity := quantity)],
                       legs := WithQuantity(db.legs, WorkingLegs(db, g), quantity)))
  }

  /** The orphan sweep's scale-down: never raises a size, never touches a claimed group. */
  function Shrink(db: Db, g: GroupId, scope: Scope, held: int): Option<Db> {
    if g !in db.groups || db.groups[g].scope.user != scope.user || db.groups[g].scope.provider != scope.provider ||
       db.groups[g].scope.mode != scope.mode || db.groups[g].scope.account != scope.account ||
       db.groups[g].status != GroupWorking || db.groups[g].protectedQuantity <= held then None
    else Some(db.(groups := db.groups[g := db.groups[g].(protectedQuantity := held)],
                  legs := WithQuantity(db.legs, WorkingLegs(db, g), held)))
  }

  function CloseIfEmpty(db: Db, g: GroupId, reason: string): Db {
    if g !in db.groups || db.groups[g].status != GroupWorking || HasActiveLeg(db, g) then db
    else db.(groups := db.groups[g := db.groups[g].(status := GroupClosed, fireLeg := None, leaseOwner := None,
                                                    leaseExpires := None, note := Some(reason))])
  }

  /** A working leg with a group of its own owner. */
  predicate Retirable(db: Db, leg: LegId) {
    && leg in db.legs && db.legs[leg].status == Working && db.legs[leg].group in db.groups
    && db.groups[db.legs[leg].group].scope.user == db.legs[leg].user
  }

  /** Takes one working leg out of its group: cancelled by the user or the orphan sweep, or expired. */
  function RetireLeg(db: Db, leg: LegId, status: LegStatus, reason: string): Option<Db> {
    if !Retirable(db, leg) then None
    else
      var row := db.legs[leg];
      var note := if status == Cancelled then NoNote else row.note;
      Some(CloseIfEmpty(db.(legs := db.legs[leg := row.(status := status, note := note)]), row.group, reason))
  }

  function CancelLeg(db: Db, user: UserId, leg: LegId): Result<Db, ArmError> {
    if leg !in db.legs || db.legs[leg].user != user then Failure(NotFound)
    else if db.legs[leg].group !in db.groups || db.groups[db.legs[leg].group].scope.user != user then Failure(NotFound)
    else if db.groups[db.legs[leg].group].status != GroupWorking then Failure(NotWorking)
    else match RetireLeg(db, leg, Cancelled, "All bracket legs cancelled")
      case None => Failure(NotWorking)
      case Some(after) => Success(after)
  }

  function ExpireLeg(db: Db, leg: LegId, now: Time): Option<Db> {
    if leg in db.legs && db.legs[leg].expiresAt <= now then RetireLeg(db, leg, Expired, "All bracket legs expired") else None
  }

  // ---------------------------------------------------------------------------
  // Claiming a fire and settling it
  // ---------------------------------------------------------------------------

  /** The other legs a claim takes out of play. */
  function WorkingSiblings(db: Db, leg: LegId): set<LegId>
    requires leg in db.legs
  {
    var row := db.legs[leg];
    set l | l in db.legs && l != leg && db.legs[l].group == row.group && db.legs[l].user == row.user &&
            db.legs[l].mode == row.mode && db.legs[l].status == Working
  }

  function RetireSiblings(legs: map<LegId, Leg>, which: set<LegId>, fire: LegId): map<LegId, Leg> {
    map l | l in legs ::
      if l in which then legs[l].(status := Cancelled, triggeredAt := None, note := RetiredBy(fire)) else legs[l]
  }

  function RestoreSiblings(legs: map<LegId, Leg>, which: set<LegId>): map<LegId, Leg> {
    map l | l in legs ::
      if l in which then legs[l].(status := Working, triggeredAt := None, note := NoNote) else legs[l]
  }

  datatype Claimed = Claimed(db: Db, retired: set<LegId>, quantity: int)

  /** Claims the whole group for one leg: the group and the leg become pending, every working sibling is retired. */
  function Claim(db: Db, leg: LegId, worker: WorkerId, now: Time): Option<Claimed> {
    if leg !in db.legs || db.legs[leg].group !in db.groups then None
    else
      var row := db.legs[leg];
      var group := db.groups[row.group];
      if group.scope.user != row.user || group.scope.mode != row.mode then None
      else if UnresolvedClose(db, group.scope, row.group) then None
      else if group.status != GroupWorking then None
      else if row.status != Working then None
      else
        var siblings := WorkingSiblings(db, leg);
        var claimedLegs := db.legs[leg := row.(status := PendingFire, triggeredAt := Some(now), note := NoNote)];
        var claimedGroup := group.(status := GroupPendingFire, fireLeg := Some(leg), leaseOwner := Some(worker),
                                   leaseExpires := Some(now + GROUP_FIRE_LEASE_MS), note := None);
        Some(Claimed(db.(groups := db.groups[row.group := claimedGroup],
                         legs := RetireSiblings(claimedLegs, siblings, leg)),
                     siblings, group.protectedQuantity))
  }

  predicate Restorable(db: Db, leg: LegId, l: LegId)
    requires leg in db.legs
  {
    && l in db.legs && db.legs[l].user == db.legs[leg].user && db.legs[l].group == db.legs[leg].group
    && db.legs[l].status == Cancelled && db.legs[l].note == RetiredBy(leg)
  }

  predicate HoldsClaim(db: Db, leg: LegId, worker: WorkerId) {
    && leg in db.legs && db.legs[leg].group in db.groups
    && var group := db.groups[db.legs[leg].group];
    && group.scope.user == db.legs[leg].user
    && group.status == GroupPendingFire && group.fireLeg == Some(leg) && group.leaseOwner == Some(worker)
  }

  function SettledLeg(leg: Leg, status: LegStatus, note: Note): Leg {
    leg.(status := status, note := note, triggeredAt := if status == Working then None else leg.triggeredAt)
  }

  /** The claim undone: leg settled, siblings restored, group working and unleased again. */
  function Released(db: Db, leg: LegId, retired: set<LegId>, status: LegStatus, note: Note): Db
    requires leg in db.legs && db.legs[leg].group in db.groups
  {
    var g := db.legs[leg].group;
    var text := if note.Message? then Some(note.text) else None;
    var released := db.groups[g].(status := GroupWorking, fireLeg := None, leaseOwner := None, leaseExpires := None, note := text);
    db.(groups := db.groups[g := released],
        legs := RestoreSiblings(db.legs[leg := SettledLeg(db.legs[leg], status, note)], retired))
  }

  /** Unwinds a claim whose order provably was not sent. */
  function SettleNoSend(db: Db, leg: LegId, retired: set<LegId>, status: LegStatus, note: Note, worker: WorkerId, reason: string)
    : Option<Db>
  {
    if !HoldsClaim(db, leg, worker) then None
    else if exists l :: l in retired && !Restorable(db, leg, l) then None
    else if db.legs[leg].status !in {PendingFire, Triggered} then None
    else Some(CloseIfEmpty(Released(db, leg, retired, status, note), db.legs[leg].group, reason))
  }

  /** Legs a finished fire retires for good. */
  function FinishedSiblings(db: Db, leg: LegId): set<LegId>
    requires leg in db.legs
  {
    set l | l in db.legs && l != leg && db.legs[l].group == db.legs[leg].group && db.legs[l].user == db.legs[leg].user &&
            (db.legs[l].status == Working || (db.legs[l].status == Cancelled && db.legs[l].note == RetiredBy(leg)))
  }

  function DropSiblings(legs: map<LegId, Leg>, which: set<LegId>): map<LegId, Leg> {
    map l | l in legs :: if l in which then legs[l].(status := Cancelled, note := NoNote) else legs[l]
  }

  /** Records the accepted order on the fire leg and closes the group as fired. */
  function Finish(db: Db, leg: LegId, order: OrderId, worker: WorkerId): Option<Db> {
    if !HoldsClaim(db, leg, worker) then None
    else if db.legs[leg].status !in {PendingFire, Triggered} then None
    else
      var g := db.legs[leg].group;
      var firedLegs := db.legs[leg := db.legs[leg].(status := Triggered, brokerOrder := Some(order))];
      var fired := db.groups[g].(status := GroupFired, leaseOwner := None, leaseExpires := None, note := None);
      Some(db.(groups := db.groups[g := fired], legs := DropSiblings(firedLegs, FinishedSiblings(db, leg))))
  }

  // ---------------------------------------------------------------------------
  // Recovery
  // ---------------------------------------------------------------------------

  /** Takes over a pending group whose lease has run out. */
  function TakeOver(db: Db, g: GroupId, worker: WorkerId, now: Time): Option<Db> {
    if g !in db.groups || db.groups[g].status != GroupPendingFire || db.groups[g].leaseExpires.None? ||
       db.groups[g].leaseExpires.value >= now then None
    else Some(db.(groups := db.groups[g := db.groups[g].(leaseOwner := Some(worker),
                                                         leaseExpires := Some(now + GROUP_FIRE_LEASE_MS))]))
  }

  datatype Prepared = Prepared(db: Db, siblings: set<LegId>)

  /** Makes the fire leg non-working and retires every sibling still working. */
  function Prepare(db: Db, leg: LegId, g: GroupId, now: Time): Option<Prepared> {
    if leg !in db.legs || db.legs[leg].group != g then None
    else if db.legs[leg].status !in {Working, PendingFire, Triggered} then None
    else
      var row := db.legs[leg];
      var held := if row.status == Working then row.(status := PendingFire, triggeredAt := Some(now), note := NoNote) else row;
      var siblings := set l | l in db.legs && l != leg && db.legs[l].group == g && db.legs[l].user == row.user &&
                              db.legs[l].mode == row.mode &&
                              (db.legs[l].status == Working ||
                               (db.legs[l].status == Cancelled && db.legs[l].note == RetiredBy(leg)));
      Some(Prepared(db.(legs := RetireSiblings(db.legs[leg := held], WorkingSiblings(db, leg), leg)), siblings))
  }

  /** What recovery does to a group whose fire leg Prepare refuses. */
  function GiveUp(db: Db, g: GroupId, worker: WorkerId): Db {
    if g !in db.groups || db.groups[g].leaseOwner != Some(worker) then db
    else db.(groups := db.groups[g := db.groups[g].(status := GroupFailed,
                                                    note := Some("Fire leg cannot be recovered safely"))])
  }

  /** Keeps a pending claim reserved: a fresh lease and an explanation, nothing else. */
  function Extend(db: Db, g: GroupId, until: Time, text: string): Db {
    if g !in db.groups || db.groups[g].status != GroupPendingFire then db
    else db.(groups := db.groups[g := db.groups[g].(leaseExpires := Some(until), note := Some(text))])
  }

  /** Explains on the fire leg why its claim is still pending. */
  function Annotate(db: Db, leg: LegId, text: string): Db {
    if leg !in db.legs || db.legs[leg].status !in {PendingFire, Triggered} then db
    else db.(legs := db.legs[leg := db.legs[leg].(note := Message(text))])
  }
}
