/** When each step of the bracket machine can be taken, what a placement can answer, and what a step leaves beside the rows. */
module BracketSteps {
  import opened Wrappers
  import opened BracketRules
  import opened BracketProtocol

  /**
   What place can answer on a leg's key: a replay for a completed audit; "in flight" for a pending one, or
   the order the broker already has; a send, whatever comes of it, only without an audit or with a pending
   one behind which nothing was accepted; and a refusal before the key is read at any time.
   */
  lemma PlaceAnswers(s: State, t: TaskId, outcome: Outcome)
    requires t in s.tasks
    ensures var leg := s.tasks[t].leg;
            var (completed, pending) := (leg in s.audits && s.audits[leg].CompletedAudit?, leg in s.audits && s.audits[leg].PendingAudit?);
            Enabled(s, PlaceEvent(t, outcome)) <==>
              && (s.tasks[t].phase.Firing? || s.tasks[t].phase.Recovering?)
              && match outcome
                 case Replayed => completed
                 case InFlight => pending
                 case Found(_) => pending && leg in s.accepted
                 case TurnedAway => true
                 case _ => !completed && (pending ==> leg !in s.accepted)
  {
  }

  /** Every answer by what it leaves: the audit, what the broker has accepted and at which size, and where the worker stands. */
  lemma PlaceMeans(s: State, t: TaskId, outcome: Outcome)
    requires Enabled(s, PlaceEvent(t, outcome))
    ensures var (leg, phase) := (s.tasks[t].leg, s.tasks[t].phase);
            var marked := match phase case Firing(retired, _) => retired case Recovering(siblings, _) => siblings case _ => {};
            var (refused, acked) := (s.tasks[t := s.tasks[t].(phase := Refused(marked))], (order: OrderId) => s.tasks[t := s.tasks[t].(phase := Acknowledged(order))]);
            Apply(s, PlaceEvent(t, outcome)) ==
            match outcome
            case Replayed => s.(tasks := acked(s.audits[leg].order))
            case InFlight => s.(tasks := s.tasks - {t})
            case Found(recorded) =>
              s.(audits := if recorded then s.audits[leg := CompletedAudit(s.accepted[leg].order)] else s.audits, tasks := acked(s.accepted[leg].order))
            case Sent(order, recorded) =>
              s.(audits := s.audits[leg := if recorded then CompletedAudit(order) else PendingAudit],
                 accepted := s.accepted[leg := Close(order, phase.quantity)], tasks := acked(order))
            case Unknown(Some(order)) =>
              s.(audits := s.audits[leg := PendingAudit], accepted := s.accepted[leg := Close(order, phase.quantity)], tasks := s.tasks - {t})
            case Unknown(None) => s.(audits := s.audits[leg := PendingAudit], tasks := s.tasks - {t})
            case Rejected(cleared) =>
              s.(audits := if cleared then s.audits - {leg} else s.audits[leg := PendingAudit], tasks := refused)
            case TurnedAway => s.(tasks := refused)
  {
  }

  /** Workers go on exactly from where they stand; clients, sweeps and the broker's reports wait for nobody. */
  lemma StepsAllowed(s: State, t: TaskId, status: LegStatus, text: string, now: Time, leg: LegId, worker: WorkerId, g: GroupId)
    ensures Enabled(s, ClaimEvent(t, leg, worker, now)) <==> t !in s.tasks
    ensures Enabled(s, TakeOverEvent(t, g, worker, now)) <==> t !in s.tasks
    ensures Enabled(s, UnclaimEvent(t, status)) <==> t in s.tasks && s.tasks[t].phase.Firing? && (status.Working? || status.Expired?)
    ensures Enabled(s, SettleEvent(t, text)) <==> t in s.tasks && s.tasks[t].phase.Refused?
    ensures Enabled(s, FinishEvent(t)) <==> t in s.tasks && s.tasks[t].phase.Acknowledged?
    ensures Enabled(s, PrepareEvent(t, now)) <==> t in s.tasks && s.tasks[t].phase.Leased?
    ensures Enabled(s, ReadAuditEvent(t)) <==>
              t in s.tasks && s.tasks[t].phase.Recovering? && exists order :: s.tasks[t].leg in s.audits && s.audits[s.tasks[t].leg] == CompletedAudit(order)
    ensures Enabled(s, StopEvent(t)) <==> t in s.tasks
    ensures forall user, quantity :: Enabled(s, ResizeEvent(user, leg, quantity))
    ensures forall scope, held :: Enabled(s, ShrinkEvent(g, scope, held))
    ensures forall user :: Enabled(s, CancelEvent(user, leg))
    ensures Enabled(s, OrphanEvent(leg)) && Enabled(s, ExpireEvent(leg, now)) && Enabled(s, ExtendEvent(g, now, text)) && Enabled(s, AnnotateEvent(leg, text))
  {
    if t in s.tasks && s.tasks[t].leg in s.audits && s.audits[s.tasks[t].leg].CompletedAudit? {
      assert s.audits[s.tasks[t].leg] == CompletedAudit(s.audits[s.tasks[t].leg].order);
    }
  }

  /** Every step that is not a placement runs its one transaction on the rows: they are what it gives where it succeeds, and as they were where it does not. */
  lemma StepWrites(s: State, e: Event)
    requires Enabled(s, e) && !e.PlaceEvent?
    ensures var after := Apply(s, e).db;
            match e
            case ArmEvent(req, canonical, existing, newId, now) =>
              (match Arm(s.db, req, canonical, existing, newId, now) case Success(armed) => after == armed.0 case Failure(_) => after == s.db)
            case ResizeEvent(user, leg, quantity) => (match Resize(s.db, user, leg, quantity) case Success(db) => after == db case Failure(_) => after == s.db)
            case CancelEvent(user, leg) => (match CancelLeg(s.db, user, leg) case Success(db) => after == db case Failure(_) => after == s.db)
            case ShrinkEvent(g, scope, held) => Lands(s.db, Shrink(s.db, g, scope, held), after)
            case OrphanEvent(leg) => Lands(s.db, RetireLeg(s.db, leg, Cancelled, "All bracket legs orphaned from the broker position"), after)
            case ExpireEvent(leg, now) => Lands(s.db, ExpireLeg(s.db, leg, now), after)
            case ClaimEvent(_, leg, worker, now) => (match Claim(s.db, leg, worker, now) case Some(claim) => after == claim.db case None => after == s.db)
            case UnclaimEvent(t, status) =>
              Lands(s.db, SettleNoSend(s.db, s.tasks[t].leg, s.tasks[t].phase.retired, status, NoNote, s.tasks[t].worker,
                                       "Bracket fire was unclaimed before broker placement"), after)
            case SettleEvent(t, text) =>
              Lands(s.db, SettleNoSend(s.db, s.tasks[t].leg, s.tasks[t].phase.retired, Failed, Message(text), s.tasks[t].worker,
                                       "Bracket fire was rejected before broker acceptance"), after)
            case FinishEvent(t) => Lands(s.db, Finish(s.db, s.tasks[t].leg, s.tasks[t].phase.order, s.tasks[t].worker), after)
            case TakeOverEvent(_, g, worker, now) => Lands(s.db, TakeOver(s.db, g, worker, now), after)
            case ExtendEvent(g, until, text) => after == Extend(s.db, g, until, text)
            case AnnotateEvent(leg, text) => after == Annotate(s.db, leg, text)
            case TradesEvent(trades) => after == s.db.(trades := trades)
            case PrepareEvent(_, _) => after.trades == s.db.trades
            case _ => after == s.db
  {
    hide Claim, TakeOver, SettleNoSend, Finish, Arm, Resize, Shrink, CancelLeg, RetireLeg, ExpireLeg, Extend, Annotate,
         EnsureGroup, IsCanonical, IsLegOfKind;
  }

  predicate Lands(before: Db, result: Option<Db>, after: Db) {
    match result case Some(db) => after == db case None => after == before
  }

  /** Only a placement writes an audit or sends anything; only a worker's own step moves it, and requests, sweeps and reports move none. */
  lemma StepLeaves(s: State, e: Event)
    requires Enabled(s, e) && !e.PlaceEvent?
    ensures var s' := Apply(s, e);
            && s'.audits == s.audits && s'.accepted == s.accepted
            && match e
               case ClaimEvent(t, leg, worker, now) =>
                 (match Claim(s.db, leg, worker, now)
                  case Some(claim) => s'.tasks == s.tasks[t := Task(worker, s.db.legs[leg].group, leg, Firing(claim.retired, claim.quantity))]
                  case None => s' == s)
               case UnclaimEvent(t, _) => s'.tasks == s.tasks - {t}
               case SettleEvent(t, _) => s'.tasks == s.tasks - {t}
               case FinishEvent(t) => s'.tasks == s.tasks - {t}
               case StopEvent(t) => s' == s.(tasks := s.tasks - {t})
               case ReadAuditEvent(t) => s' == s.(tasks := s.tasks[t := s.tasks[t].(phase := Acknowledged(s.audits[s.tasks[t].leg].order))])
               case TakeOverEvent(t, g, worker, now) =>
                 if TakeOver(s.db, g, worker, now).None? then s' == s
                 else (match s.db.groups[g].fireLeg
                       case Some(leg) => s'.tasks == s.tasks[t := Task(worker, g, leg, Leased(s.db.groups[g].protectedQuantity))]
                       case None => s'.tasks == s.tasks)
               case PrepareEvent(t, now) =>
                 (match Prepare(s.db, s.tasks[t].leg, s.tasks[t].group, now)
                  case Some(prepared) => s' == s.(db := prepared.db, tasks := s.tasks[t := s.tasks[t].(phase := Recovering(prepared.siblings, s.tasks[t].phase.quantity))])
                  case None => s' == s.(db := GiveUp(s.db, s.tasks[t].group, s.tasks[t].worker), tasks := s.tasks - {t}))
               case TradesEvent(trades) => s' == s.(db := s.db.(trades := trades))
               case _ => s' == s.(db := s'.db)
  {
    hide Claim, TakeOver, Prepare, SettleNoSend, Finish, Arm, Resize, Shrink, CancelLeg, RetireLeg, ExpireLeg, GiveUp, Extend, Annotate,
         EnsureGroup, IsCanonical, IsLegOfKind;
  }
}
