/** When a position's close path is taken, told by what the trade rows show. */
module BracketReservation {
  import opened Wrappers
  import opened BracketRules

  /** The statuses the rows of an order show in one account of one broker. */
  ghost function StatusesOf(trades: seq<Trade>, scope: Scope, order: OrderId): set<TradeStatus> {
    set i | 0 <= i < |trades|
            && (trades[i].user, trades[i].provider, trades[i].mode, trades[i].account) == (scope.user, scope.provider, scope.mode, scope.account)
            && (trades[i].brokerId == Some(order) || trades[i].clientId == Some(order)) :: trades[i].status
  }

  /** The broker is done with an order once it is known there and nothing of it is submitted or partly filled. */
  ghost predicate DoneAtBroker(trades: seq<Trade>, scope: Scope, order: OrderId) {
    StatusesOf(trades, scope, order) != {} && Submitted !in StatusesOf(trades, scope, order) && PartiallyFilled !in StatusesOf(trades, scope, order)
  }

  /** A bracket that was claimed, or that has fired and whose close the broker is not done with. */
  ghost predicate CloseOpen(db: Db, group: Group) {
    || group.status.GroupPendingFire?
    || (group.status.GroupFired? &&
        !exists leg, order :: group.fireLeg == Some(leg) && leg in db.legs && db.legs[leg].brokerOrder == Some(order) &&
                              DoneAtBroker(db.trades, group.scope, order))
  }

  lemma TerminalMeans(trades: seq<Trade>, scope: Scope, order: OrderId)
    ensures OrderTerminal(trades, scope, order) <==> DoneAtBroker(trades, scope, order)
    ensures DoneAtBroker(trades, scope, order) <==>
            StatusesOf(trades, scope, order) != {} && StatusesOf(trades, scope, order) <= {Filled, BrokerCancelled, BrokerRejected}
  {
    var statuses := StatusesOf(trades, scope, order);
    forall i | 0 <= i < |trades| && TradeMatches(trades[i], scope, order) ensures trades[i].status in statuses { }
    forall status | status in statuses ensures exists i :: 0 <= i < |trades| && TradeMatches(trades[i], scope, order) && trades[i].status == status {
      var i :| 0 <= i < |trades|
               && (trades[i].user, trades[i].provider, trades[i].mode, trades[i].account) == (scope.user, scope.provider, scope.mode, scope.account)
               && (trades[i].brokerId == Some(order) || trades[i].clientId == Some(order)) && trades[i].status == status;
      assert TradeMatches(trades[i], scope, order);
    }
    TerminalStatuses(trades, scope, order, statuses);
  }

  lemma TerminalStatuses(trades: seq<Trade>, scope: Scope, order: OrderId, statuses: set<TradeStatus>)
    requires forall i :: 0 <= i < |trades| && TradeMatches(trades[i], scope, order) ==> trades[i].status in statuses
    requires forall status :: status in statuses ==>
               exists i :: 0 <= i < |trades| && TradeMatches(trades[i], scope, order) && trades[i].status == status
    ensures OrderTerminal(trades, scope, order) <==> statuses != {} && Submitted !in statuses && PartiallyFilled !in statuses
    ensures OrderTerminal(trades, scope, order) <==> statuses != {} && statuses <= {Filled, BrokerCancelled, BrokerRejected}
  {
    hide TradeMatches;
    if OrderTerminal(trades, scope, order) {
      var i :| 0 <= i < |trades| && TradeMatches(trades[i], scope, order);
      assert trades[i].status in statuses;
    } else if statuses != {} {
      var status :| status in statuses;
      var i :| 0 <= i < |trades| && TradeMatches(trades[i], scope, order) && trades[i].status == status;
      var k :| 0 <= k < |trades| && TradeMatches(trades[k], scope, order) && trades[k].status !in {Filled, BrokerCancelled, BrokerRejected};
      assert trades[k].status in statuses && (trades[k].status == Submitted || trades[k].status == PartiallyFilled);
    }
  }

  lemma ReservesMeans(db: Db, group: Group)
    ensures Reserves(db, group) <==> CloseOpen(db, group)
  {
    if group.fireLeg.Some? && group.fireLeg.value in db.legs && db.legs[group.fireLeg.value].brokerOrder.Some? {
      TerminalMeans(db.trades, group.scope, db.legs[group.fireLeg.value].brokerOrder.value);
    }
  }

  /** A position is taken exactly while some other bracket of it is claimed, or has fired a close the broker is not done with. */
  lemma UnresolvedMeans(db: Db, scope: Scope, exclude: GroupId)
    ensures UnresolvedClose(db, scope, exclude) <==>
            exists g :: g in db.groups && g != exclude && db.groups[g].scope == scope && CloseOpen(db, db.groups[g])
  {
    hide Reserves, CloseOpen;
    forall g | g in db.groups ensures Reserves(db, db.groups[g]) <==> CloseOpen(db, db.groups[g]) { ReservesMeans(db, db.groups[g]); }
  }

  /**
   One row of the close that is submitted or partly filled keeps the position taken, and no row at all does
   too: nothing else of the position can be armed or claimed.
   */
  lemma OpenRowKeepsReservation(db: Db, g: GroupId, leg: LegId, order: OrderId, req: ArmRequest, canonical: Option<GroupId>, now: Time,
                                other: LegId, worker: WorkerId)
    requires g in db.groups && db.groups[g].status.GroupFired? && db.groups[g].fireLeg == Some(leg)
    requires leg in db.legs && db.legs[leg].brokerOrder == Some(order)
    requires var statuses := StatusesOf(db.trades, db.groups[g].scope, order);
             statuses == {} || Submitted in statuses || PartiallyFilled in statuses
    ensures forall exclude :: exclude != g ==> UnresolvedClose(db, db.groups[g].scope, exclude)
    ensures req.scope == db.groups[g].scope && req.requested != g ==> EnsureGroup(db, req, canonical, now).Failure?
    ensures (other in db.legs && db.legs[other].group in db.groups && db.legs[other].group != g &&
             db.groups[db.legs[other].group].scope == db.groups[g].scope) ==> Claim(db, other, worker, now).None?
  {
    hide StatusesOf;
    ReservesMeans(db, db.groups[g]);
    assert Reserves(db, db.groups[g]);
    assert forall exclude :: exclude != g ==> UnresolvedClose(db, db.groups[g].scope, exclude);
    hide UnresolvedClose, Reserves;
  }
}
