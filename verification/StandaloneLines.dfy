/**
 Chart lines outside any bracket. They have no lease row: triggeredAt is the lease, compared and
 set by recovery, and the keyed audit decides what a failed placement meant. Unlike bracket
 recovery, a refusal fails the line only when no audit row is left, so acceptance survives every
 refusal.
 */
module StandaloneLines {
  import opened Wrappers

  type LineId = nat
  type TaskId = nat
  type OrderId = string
  type Time = int

  const PENDING_AUDIT_TTL_MS := 120_000

  datatype Status = Working | PendingFire | Triggered | Cancelled | Failed | Expired
  datatype Line = Line(status: Status, triggeredAt: Option<Time>, order: Option<OrderId>)
  datatype Audit = PendingAudit | CompletedAudit(order: OrderId)

  datatype Phase =
    | Firing                       // claimed by fire, has not called place
    | FireRefused                  // fire's placement was refused, the line not yet relabelled
    | Recovering(lease: Time)      // recovery holds triggeredAt, has not called place
    | Doubting(lease: Time)        // recovery's placement failed, the audit not yet read again
    | Acknowledged(order: OrderId, held: Option<Time>)

  datatype Task = Task(line: LineId, phase: Phase)

  datatype State = State(lines: map<LineId, Line>, audits: map<LineId, Audit>, accepted: map<LineId, OrderId>, tasks: map<TaskId, Task>)

  const INIT := State(map[], map[], map[], map[])

  datatype Outcome =
    | Replayed | InFlight | Found(recorded: bool) | Sent(order: OrderId, recorded: bool) | Unknown(taken: Option<OrderId>)
    | Rejected(cleared: bool) | TurnedAway

  datatype Event =
    | Arm(line: LineId)
    | Retire(line: LineId, status: Status)
    | Claim(t: TaskId, line: LineId, now: Time)
    | Unclaim(t: TaskId, status: Status)
    | Place(t: TaskId, outcome: Outcome)
    | FailFire(t: TaskId)
    | Recover(t: TaskId, line: LineId, now: Time)
    | Judge(t: TaskId)
    | Finish(t: TaskId)
    | Stop(t: TaskId)

  predicate MaySend(phase: Phase) {
    phase.Firing? || phase.Recovering?
  }

  predicate KeyClaimable(s: State, line: LineId) {
    line !in s.audits || (s.audits[line].PendingAudit? && line !in s.accepted)
  }

  predicate PlaceEnabled(s: State, line: LineId, outcome: Outcome) {
    match outcome
    case Replayed => line in s.audits && s.audits[line].CompletedAudit?
    case InFlight => line in s.audits && s.audits[line].PendingAudit?
    case Found(_) => line in s.audits && s.audits[line].PendingAudit? && line in s.accepted
    case TurnedAway => true
    case _ => KeyClaimable(s, line)
  }

  predicate Enabled(s: State, e: Event) {
    match e
    case Arm(line) => line !in s.lines
    case Retire(line, status) => line in s.lines && s.lines[line].status == Working && status in {Cancelled, Expired}
    case Claim(t, line, _) => t !in s.tasks && line in s.lines && s.lines[line].status == Working
    case Unclaim(t, status) => t in s.tasks && s.tasks[t].phase.Firing? && s.tasks[t].line in s.lines && status in {Working, Expired}
    case Place(t, outcome) => t in s.tasks && MaySend(s.tasks[t].phase) && PlaceEnabled(s, s.tasks[t].line, outcome)
    case FailFire(t) => t in s.tasks && s.tasks[t].phase.FireRefused? && s.tasks[t].line in s.lines
    case Recover(t, line, now) =>
      && t !in s.tasks && line in s.lines && s.lines[line].status == PendingFire
      && s.lines[line].triggeredAt.Some? && s.lines[line].triggeredAt.value < now - PENDING_AUDIT_TTL_MS
    case Judge(t) => t in s.tasks && s.tasks[t].phase.Doubting?
    case Finish(t) => t in s.tasks && s.tasks[t].phase.Acknowledged? && s.tasks[t].line in s.lines
    case Stop(t) => t in s.tasks
  }

  function WithLine(s: State, line: LineId, row: Line): State {
    s.(lines := s.lines[line := row])
  }

  function WithPhase(s: State, t: TaskId, phase: Phase): State
    requires t in s.tasks
  {
    s.(tasks := s.tasks[t := s.tasks[t].(phase := phase)])
  }

  function WithoutTask(s: State, t: TaskId): State {
    s.(tasks := s.tasks - {t})
  }

  /** A recovery write lands only while the line is pending under the lease that recovery set. */
  predicate HoldsLease(s: State, line: LineId, lease: Time) {
    line in s.lines && s.lines[line].status == PendingFire && s.lines[line].triggeredAt == Some(lease)
  }

  function Refuse(s: State, t: TaskId): State
    requires t in s.tasks && MaySend(s.tasks[t].phase)
  {
    WithPhase(s, t, if s.tasks[t].phase.Firing? then FireRefused else Doubting(s.tasks[t].phase.lease))
  }

  function Acknowledge(s: State, t: TaskId, order: OrderId): State
    requires t in s.tasks && MaySend(s.tasks[t].phase)
  {
    WithPhase(s, t, Acknowledged(order, if s.tasks[t].phase.Firing? then None else Some(s.tasks[t].phase.lease)))
  }

  /** An error recovery cannot classify sends it to the audit; the fire path just stops. */
  function Doubt(s: State, t: TaskId): State
    requires t in s.tasks && MaySend(s.tasks[t].phase)
  {
    if s.tasks[t].phase.Firing? then WithoutTask(s, t) else Refuse(s, t)
  }

  function PlaceStep(s: State, t: TaskId, outcome: Outcome): State
    requires t in s.tasks && MaySend(s.tasks[t].phase) && PlaceEnabled(s, s.tasks[t].line, outcome)
  {
    var line := s.tasks[t].line;
    match outcome
    case Replayed => Acknowledge(s, t, s.audits[line].order)
    case InFlight => Doubt(s, t)
    case Found(recorded) =>
      var audits := if recorded then s.audits[line := CompletedAudit(s.accepted[line])] else s.audits;
      Acknowledge(s.(audits := audits), t, s.accepted[line])
    case Sent(order, recorded) =>
      var audit := if recorded then CompletedAudit(order) else PendingAudit;
      Acknowledge(s.(audits := s.audits[line := audit], accepted := s.accepted[line := order]), t, order)
    case Unknown(taken) =>
      var accepted := if taken.None? then s.accepted else s.accepted[line := taken.value];
      Doubt(s.(audits := s.audits[line := PendingAudit], accepted := accepted), t)
    case Rejected(cleared) => Refuse(s.(audits := if cleared then s.audits - {line} else s.audits[line := PendingAudit]), t)
    case TurnedAway => Refuse(s, t)
  }

  function Apply(s: State, e: Event): State
    requires Enabled(s, e)
  {
    match e
    case Arm(line) => WithLine(s, line, Line(Working, None, None))
    case Retire(line, status) => WithLine(s, line, s.lines[line].(status := status))
    case Claim(t, line, now) =>
      WithLine(s, line, s.lines[line].(status := PendingFire, triggeredAt := Some(now))).(tasks := s.tasks[t := Task(line, Firing)])
    case Unclaim(t, status) =>
      var row := s.lines[s.tasks[t].line];
      WithoutTask(WithLine(s, s.tasks[t].line,
                           row.(status := status, triggeredAt := if status == Working then None else row.triggeredAt)), t)
    case Place(t, outcome) => PlaceStep(s, t, outcome)
    case FailFire(t) => WithoutTask(WithLine(s, s.tasks[t].line, s.lines[s.tasks[t].line].(status := Failed)), t)
    case Recover(t, line, now) =>
      WithLine(s, line, s.lines[line].(triggeredAt := Some(now))).(tasks := s.tasks[t := Task(line, Recovering(now))])
    case Judge(t) =>
      var (line, lease) := (s.tasks[t].line, s.tasks[t].phase.lease);
      if line in s.audits && s.audits[line].CompletedAudit? then WithPhase(s, t, Acknowledged(s.audits[line].order, Some(lease)))
      else if line !in s.audits && HoldsLease(s, line, lease) then WithoutTask(WithLine(s, line, s.lines[line].(status := Failed)), t)
      else WithoutTask(s, t)
    case Finish(t) =>
      var (line, phase) := (s.tasks[t].line, s.tasks[t].phase);
      if phase.held.None? || HoldsLease(s, line, phase.held.value)
      then WithoutTask(WithLine(s, line, s.lines[line].(status := Triggered, order := Some(phase.order))), t)
      else WithoutTask(s, t)
    case Stop(t) => WithoutTask(s, t)
  }

  // ---------------------------------------------------------------------------
  // What each step means for its line
  // ---------------------------------------------------------------------------

  /** Nothing but line k and task t differs. */
  ghost predicate OnlyMoved(s: State, s': State, k: LineId, t: TaskId) {
    && s'.audits == s.audits && s'.accepted == s.accepted && s'.lines.Keys == s.lines.Keys
    && (forall l :: l in s.lines && l != k ==> s'.lines[l] == s.lines[l])
    && (forall u :: u != t ==> (u in s'.tasks <==> u in s.tasks) && (u in s.tasks ==> s'.tasks[u] == s.tasks[u]))
  }

  /** A line is cancelled or expired exactly while it is working, and keeps everything else. */
  lemma RetireMeans(s: State, k: LineId, status: Status)
    ensures Enabled(s, Retire(k, status)) <==> k in s.lines && s.lines[k].status.Working? && (status.Cancelled? || status.Expired?)
    ensures Enabled(s, Retire(k, status)) ==>
              var s' := Apply(s, Retire(k, status));
              s'.tasks == s.tasks && (forall t :: OnlyMoved(s, s', k, t)) && s'.lines[k] == Line(status, s.lines[k].triggeredAt, s.lines[k].order)
  {
  }

  /** A claim takes a working line; giving it back restores it, or expires it with the time of the claim. */
  lemma ClaimMeans(s: State, t: TaskId, k: LineId, now: Time, status: Status)
    requires t !in s.tasks && k in s.lines && s.lines[k].status.Working?
    ensures Enabled(s, Claim(t, k, now))
    ensures var claimed := Apply(s, Claim(t, k, now));
            && OnlyMoved(s, claimed, k, t) && claimed.lines[k] == Line(PendingFire, Some(now), s.lines[k].order)
            && t in claimed.tasks && claimed.tasks[t] == Task(k, Firing)
            && (Enabled(claimed, Unclaim(t, status)) <==> status.Working? || status.Expired?)
            && (Enabled(claimed, Unclaim(t, status)) ==>
                  var back := Apply(claimed, Unclaim(t, status));
                  && back.tasks == s.tasks && OnlyMoved(s, back, k, t)
                  && back.lines[k] == Line(status, if status.Working? then None else Some(now), s.lines[k].order))
  {
    assert Enabled(s, Claim(t, k, now));
    var claimed := Apply(s, Claim(t, k, now));
    if Enabled(claimed, Unclaim(t, status)) { assert Apply(claimed, Unclaim(t, status)).tasks == s.tasks; }
  }

  /** Recovery takes a pending line only more than two minutes after it was last taken, and stamps it with its own time. */
  lemma RecoverMeans(s: State, t: TaskId, k: LineId, now: Time)
    ensures Enabled(s, Recover(t, k, now)) <==>
            t !in s.tasks && k in s.lines && s.lines[k].status.PendingFire? && s.lines[k].triggeredAt.Some? &&
            s.lines[k].triggeredAt.value + 120_000 < now
    ensures Enabled(s, Recover(t, k, now)) ==>
              var s' := Apply(s, Recover(t, k, now));
              && OnlyMoved(s, s', k, t) && s'.lines[k] == Line(PendingFire, Some(now), s.lines[k].order)
              && t in s'.tasks && s'.tasks[t] == Task(k, Recovering(now))
  {
  }

  /**
   When place can answer what: a replay of a completed audit, "in flight" or a reconciled order for a
   pending one, and a new send only without an audit or with a pending one of which nothing was accepted.
   */
  lemma PlaceAnswers(s: State, t: TaskId, outcome: Outcome)
    requires t in s.tasks
    ensures var k := s.tasks[t].line; var sends := s.tasks[t].phase.Firing? || s.tasks[t].phase.Recovering?;
            var completed := k in s.audits && s.audits[k].CompletedAudit?; var pending := k in s.audits && s.audits[k].PendingAudit?;
            Enabled(s, Place(t, outcome)) <==>
              && sends
              && (outcome.Replayed? ==> completed)
              && (outcome.InFlight? ==> pending)
              && (outcome.Found? ==> pending && k in s.accepted)
              && (outcome.Sent? || outcome.Unknown? || outcome.Rejected? ==> !completed && (pending ==> k !in s.accepted))
  {
  }

  /** What an answer leaves of the line's audit and acceptance, and where its worker goes. */
  lemma PlaceMeans(s: State, t: TaskId, outcome: Outcome)
    requires Enabled(s, Place(t, outcome))
    ensures var s' := Apply(s, Place(t, outcome)); var (k, phase) := (s.tasks[t].line, s.tasks[t].phase);
            && s'.lines == s.lines
            && (forall l :: l != k ==> (l in s'.audits <==> l in s.audits) && (l in s.audits ==> s'.audits[l] == s.audits[l]) &&
                                       (l in s'.accepted <==> l in s.accepted) && (l in s.accepted ==> s'.accepted[l] == s.accepted[l]))
            && (k in s'.accepted <==> k in s.accepted || outcome.Sent? || (outcome.Unknown? && outcome.taken.Some?))
            && (k in s'.accepted ==> s'.accepted[k] == if outcome.Sent? then outcome.order
                                                       else if outcome.Unknown? && outcome.taken.Some? then outcome.taken.value
                                                       else s.accepted[k])
            && (outcome.Replayed? || outcome.InFlight? || outcome.TurnedAway? ==> s'.audits == s.audits)
            && (outcome.Found? ==> k in s'.audits && s'.audits[k] == if outcome.recorded then CompletedAudit(s.accepted[k]) else PendingAudit)
            && (outcome.Sent? ==> k in s'.audits && s'.audits[k] == if outcome.recorded then CompletedAudit(outcome.order) else PendingAudit)
            && (outcome.Unknown? ==> k in s'.audits && s'.audits[k] == PendingAudit)
            && (outcome.Rejected? ==> if outcome.cleared then k !in s'.audits else k in s'.audits && s'.audits[k] == PendingAudit)
            && (forall u :: u != t ==> (u in s'.tasks <==> u in s.tasks) && (u in s.tasks ==> s'.tasks[u] == s.tasks[u]))
            && (outcome.Replayed? || outcome.Found? || outcome.Sent? ==>
                  && t in s'.tasks && s'.tasks[t].line == k && s'.tasks[t].phase.Acknowledged?
                  && s'.tasks[t].phase.held == (if phase.Firing? then None else Some(phase.lease))
                  && s'.tasks[t].phase.order == (if outcome.Replayed? then s.audits[k].order else s'.accepted[k]))
            && (outcome.Rejected? || outcome.TurnedAway? ==>
                  t in s'.tasks && s'.tasks[t] == Task(k, if phase.Firing? then FireRefused else Doubting(phase.lease)))
            && (outcome.InFlight? || outcome.Unknown? ==>
                  if phase.Firing? then t !in s'.tasks else t in s'.tasks && s'.tasks[t] == Task(k, Doubting(phase.lease)))
  {
  }

  /** A doubting recovery takes the order a completed audit names; without any audit it fails the line, if the line is still its own; otherwise it lets go. */
  lemma JudgeMeans(s: State, t: TaskId)
    requires Enabled(s, Judge(t))
    ensures var s' := Apply(s, Judge(t)); var (k, lease) := (s.tasks[t].line, s.tasks[t].phase.lease);
            var own := k in s.lines && s.lines[k].status.PendingFire? && s.lines[k].triggeredAt == Some(lease);
            && OnlyMoved(s, s', k, t)
            && (k in s.audits && s.audits[k].CompletedAudit? ==>
                  s'.lines == s.lines && t in s'.tasks && s'.tasks[t] == Task(k, Acknowledged(s.audits[k].order, Some(lease))))
            && (k in s.audits && s.audits[k].PendingAudit? ==> s'.lines == s.lines && t !in s'.tasks)
            && (k !in s.audits ==> t !in s'.tasks && if own then s'.lines[k] == Line(Failed, Some(lease), s.lines[k].order) else s'.lines == s.lines)
  {
  }

  /** An acknowledged order is recorded: by the fire whatever stands there, by recovery only while the line is its own. */
  lemma FinishMeans(s: State, t: TaskId)
    requires Enabled(s, Finish(t))
    ensures var s' := Apply(s, Finish(t)); var (k, phase) := (s.tasks[t].line, s.tasks[t].phase);
            var own := phase.held.None? || (s.lines[k].status.PendingFire? && s.lines[k].triggeredAt == phase.held);
            && OnlyMoved(s, s', k, t) && t !in s'.tasks
            && (if own then s'.lines[k] == Line(Triggered, s.lines[k].triggeredAt, Some(phase.order)) else s'.lines == s.lines)
  {
  }

  /** The late relabelling of a refused fire looks at nothing but the line's id. */
  lemma FailFireMeans(s: State, t: TaskId)
    requires Enabled(s, FailFire(t))
    ensures var s' := Apply(s, FailFire(t)); var k := s.tasks[t].line;
            OnlyMoved(s, s', k, t) && t !in s'.tasks && s'.lines[k] == Line(Failed, s.lines[k].triggeredAt, s.lines[k].order)
  {
  }

  /**
   Recovery waits two minutes, and by then whoever held the line before has stopped: nobody who may
   still send, and no fire that has its refusal but has not yet relabelled the line. That last write
   looks at nothing but the line's id.
   */
  predicate Disciplined(s: State, e: Event)
    requires Enabled(s, e)
  {
    e.Recover? ==> forall t :: t in s.tasks && s.tasks[t].line == e.line ==> !MaySend(s.tasks[t].phase) && !s.tasks[t].phase.FireRefused?
  }

  ghost predicate LineOk(s: State, k: LineId) {
    && (k in s.accepted ==> k in s.lines && s.lines[k].status in {PendingFire, Triggered} && k in s.audits)
    && (k in s.audits ==> k in s.lines && (s.audits[k].CompletedAudit? ==> k in s.accepted && s.accepted[k] == s.audits[k].order))
    && (k in s.lines && s.lines[k].status == Working ==> k !in s.audits)
    && (k in s.lines && s.lines[k].status == Triggered ==> k in s.accepted && s.lines[k].order == Some(s.accepted[k]))
  }

  predicate FireSide(phase: Phase) {
    phase.Firing? || phase.FireRefused?
  }

  predicate RecoverySide(phase: Phase) {
    phase.Recovering? || phase.Doubting?
  }

  /** What two workers on one line may be doing at once. */
  predicate Compatible(a: Phase, b: Phase) {
    && !(FireSide(a) && (FireSide(b) || RecoverySide(b)))
    && !(FireSide(b) && RecoverySide(a))
    && !(a.Recovering? && b.Recovering?)
    && (RecoverySide(a) && RecoverySide(b) && (a.Recovering? || b.Recovering?) ==> a.lease != b.lease)
  }

  ghost predicate TaskOk(s: State, t: TaskId)
    requires t in s.tasks
  {
    var (line, phase) := (s.tasks[t].line, s.tasks[t].phase);
    && line in s.lines
    && (FireSide(phase) ==> s.lines[line].status == PendingFire)
    && (RecoverySide(phase) ==>
          s.lines[line].status != Working && s.lines[line].triggeredAt.Some? && phase.lease <= s.lines[line].triggeredAt.value)
    && (phase.Recovering? ==> s.lines[line].status == Triggered || HoldsLease(s, line, phase.lease))
    && (phase.Firing? ==> line !in s.audits)
    && (phase.FireRefused? ==> line !in s.accepted)
    && (phase.Acknowledged? ==> line in s.accepted && s.accepted[line] == phase.order)
  }

  ghost predicate TasksCompatible(s: State) {
    forall t, u :: t in s.tasks && u in s.tasks && t != u && s.tasks[t].line == s.tasks[u].line ==>
                     Compatible(s.tasks[t].phase, s.tasks[u].phase)
  }

  ghost predicate Inv(s: State) {
    (forall k :: LineOk(s, k)) && (forall t :: t in s.tasks ==> TaskOk(s, t)) && TasksCompatible(s)
  }

  lemma PlaceKeepsLines(s: State, t: TaskId, outcome: Outcome, k: LineId)
    requires Enabled(s, Place(t, outcome)) && TaskOk(s, t) && LineOk(s, k) && LineOk(s, s.tasks[t].line)
    ensures LineOk(PlaceStep(s, t, outcome), k)
  {
  }

  /** The steps that write a line on behalf of a worker. */
  lemma WorkerKeepsLines(s: State, e: Event, k: LineId)
    requires Enabled(s, e) && (e.Unclaim? || e.FailFire? || e.Judge? || e.Finish?)
    requires TaskOk(s, e.t) && LineOk(s, k) && LineOk(s, s.tasks[e.t].line)
    ensures LineOk(Apply(s, e), k)
  {
    hide PlaceStep;
  }

  /** Every step leaves the rows, the audit and the broker in agreement, line by line. */
  lemma StepKeepsLines(s: State, e: Event, k: LineId)
    requires Inv(s) && Enabled(s, e)
    ensures LineOk(Apply(s, e), k)
  {
    hide TaskOk, TasksCompatible, PlaceStep;
    assert LineOk(s, k);
    if e.Place? {
      assert LineOk(s, s.tasks[e.t].line) && TaskOk(s, e.t);
      PlaceKeepsLines(s, e.t, e.outcome, k);
    } else if e.Unclaim? || e.FailFire? || e.Judge? || e.Finish? {
      assert LineOk(s, s.tasks[e.t].line) && TaskOk(s, e.t);
      WorkerKeepsLines(s, e, k);
    }
  }

  lemma PlaceKeepsTasks(s: State, t: TaskId, outcome: Outcome, u: TaskId)
    requires Inv(s) && Enabled(s, Place(t, outcome)) && u in PlaceStep(s, t, outcome).tasks
    ensures TaskOk(PlaceStep(s, t, outcome), u)
  {
    assert TaskOk(s, u) && TaskOk(s, t) && LineOk(s, s.tasks[t].line);
    assert u != t && s.tasks[u].line == s.tasks[t].line ==> Compatible(s.tasks[u].phase, s.tasks[t].phase);
  }

  lemma WorkerKeepsTasks(s: State, e: Event, u: TaskId)
    requires Enabled(s, e) && (e.Unclaim? || e.FailFire? || e.Judge? || e.Finish?)
    requires TaskOk(s, e.t) && LineOk(s, s.tasks[e.t].line) && u in Apply(s, e).tasks && u in s.tasks && TaskOk(s, u)
    requires u != e.t && s.tasks[u].line == s.tasks[e.t].line ==> Compatible(s.tasks[u].phase, s.tasks[e.t].phase)
    ensures TaskOk(Apply(s, e), u)
  {
    hide PlaceStep;
  }

  lemma StepKeepsTasks(s: State, e: Event, u: TaskId)
    requires Inv(s) && Enabled(s, e) && Disciplined(s, e) && u in Apply(s, e).tasks
    ensures TaskOk(Apply(s, e), u)
  {
    hide PlaceStep, TasksCompatible, LineOk;
    if e.Place? {
      PlaceKeepsTasks(s, e.t, e.outcome, u);
    } else if e.Unclaim? || e.FailFire? || e.Judge? || e.Finish? {
      assert u in s.tasks && TaskOk(s, u) && TaskOk(s, e.t) && LineOk(s, s.tasks[e.t].line);
      TheseTwoCompatible(s, u, e.t);
      WorkerKeepsTasks(s, e, u);
    } else if e.Claim? {
      ClaimKeepsTasks(s, e, u);
    } else {
      assert u in s.tasks ==> TaskOk(s, u);
    }
  }

  lemma TheseTwoCompatible(s: State, t: TaskId, u: TaskId)
    requires TasksCompatible(s) && t in s.tasks && u in s.tasks
    ensures t != u && s.tasks[t].line == s.tasks[u].line ==> Compatible(s.tasks[t].phase, s.tasks[u].phase)
  {
  }

  lemma ClaimKeepsTasks(s: State, e: Event, u: TaskId)
    requires Inv(s) && Enabled(s, e) && e.Claim? && u in Apply(s, e).tasks
    ensures TaskOk(Apply(s, e), u)
  {
    hide PlaceStep, TasksCompatible;
    assert LineOk(s, e.line);
    assert u in s.tasks ==> TaskOk(s, u);
  }

  lemma StepKeepsCompatible(s: State, e: Event)
    requires Inv(s) && Enabled(s, e) && Disciplined(s, e)
    ensures TasksCompatible(Apply(s, e))
  {
    hide LineOk, TaskOk, Compatible, Apply;
    var s' := Apply(s, e);
    forall t, u | t in s'.tasks && u in s'.tasks && t != u && s'.tasks[t].line == s'.tasks[u].line
      ensures Compatible(s'.tasks[t].phase, s'.tasks[u].phase)
    {
      TwoStayCompatible(s, e, t, u);
    }
  }

  /** How a worker already on a line can move on. */
  predicate Later(a: Phase, b: Phase) {
    || b == a || b.Acknowledged?
    || (a.Firing? && b.FireRefused?)
    || (a.Recovering? && b.Doubting? && a.lease == b.lease)
  }

  lemma StepMovesOn(s: State, e: Event, u: TaskId)
    requires Enabled(s, e) && u in Apply(s, e).tasks && u in s.tasks
    ensures Apply(s, e).tasks[u].line == s.tasks[u].line && Later(s.tasks[u].phase, Apply(s, e).tasks[u].phase)
  {
  }

  lemma LaterStayCompatible(a: Phase, b: Phase, c: Phase, d: Phase)
    requires Compatible(a, b) && Later(a, c) && Later(b, d)
    ensures Compatible(c, d)
  {
  }

  /** A worker that starts on a line finds nobody there it could clash with. */
  lemma NewcomerIsCompatible(s: State, e: Event, t: TaskId, u: TaskId)
    requires Inv(s) && Enabled(s, e) && Disciplined(s, e) && (e.Claim? || e.Recover?) && e.t == t
    requires u in s.tasks && s.tasks[u].line == Apply(s, e).tasks[t].line
    ensures Compatible(Apply(s, e).tasks[t].phase, s.tasks[u].phase)
    ensures Compatible(s.tasks[u].phase, Apply(s, e).tasks[t].phase)
  {
    hide LineOk, TasksCompatible, PlaceStep;
    assert TaskOk(s, u);
  }

  lemma StartedTask(s: State, e: Event, t: TaskId)
    requires Enabled(s, e) && t in Apply(s, e).tasks && t !in s.tasks
    ensures (e.Claim? || e.Recover?) && e.t == t
    ensures forall u :: u in Apply(s, e).tasks && u != t ==> u in s.tasks && Apply(s, e).tasks[u] == s.tasks[u]
  {
  }

  lemma TwoStayCompatible(s: State, e: Event, t: TaskId, u: TaskId)
    requires Inv(s) && Enabled(s, e) && Disciplined(s, e)
    requires t in Apply(s, e).tasks && u in Apply(s, e).tasks && t != u && Apply(s, e).tasks[t].line == Apply(s, e).tasks[u].line
    ensures Compatible(Apply(s, e).tasks[t].phase, Apply(s, e).tasks[u].phase)
  {
    hide LineOk, TaskOk, Compatible, Apply, Enabled, Later;
    if t !in s.tasks {
      StartedTask(s, e, t);
      NewcomerIsCompatible(s, e, t, u);
    } else if u !in s.tasks {
      StartedTask(s, e, u);
      NewcomerIsCompatible(s, e, u, t);
    } else {
      StepMovesOn(s, e, t);
      StepMovesOn(s, e, u);
      TheseTwoCompatible(s, t, u);
      LaterStayCompatible(s.tasks[t].phase, s.tasks[u].phase, Apply(s, e).tasks[t].phase, Apply(s, e).tasks[u].phase);
    }
  }

  ghost predicate CodeRun(states: seq<State>, events: seq<Event>) {
    && |states| == |events| + 1 && states[0] == INIT
    && forall i :: 0 <= i < |events| ==> Enabled(states[i], events[i]) && states[i + 1] == Apply(states[i], events[i])
  }

  ghost predicate Run(states: seq<State>, events: seq<Event>) {
    && CodeRun(states, events)
    && forall i :: 0 <= i < |events| ==> Disciplined(states[i], events[i])
  }

  lemma {:induction false} RunKeepsInv(states: seq<State>, events: seq<Event>, i: nat)
    requires Run(states, events) && i < |states|
    ensures Inv(states[i])
  {
    hide Apply, Enabled, Disciplined;
    if i == 0 {
      InitInv();
    } else {
      RunKeepsInv(states, events, i - 1);
      forall k ensures LineOk(states[i], k) { StepKeepsLines(states[i - 1], events[i - 1], k); }
      forall t | t in states[i].tasks ensures TaskOk(states[i], t) { StepKeepsTasks(states[i - 1], events[i - 1], t); }
      StepKeepsCompatible(states[i - 1], events[i - 1]);
    }
  }

  lemma InitInv()
    ensures Inv(INIT)
  {
  }

  /** An accepted standalone order keeps its one broker order, and its line is only ever pending or triggered with it. */
  lemma {:induction false} AcceptedLineNeverRelabelled(states: seq<State>, events: seq<Event>, i: nat, j: nat, k: LineId)
    requires Run(states, events) && i <= j < |states| && k in states[i].accepted
    ensures k in states[j].accepted && states[j].accepted[k] == states[i].accepted[k]
    ensures k in states[j].lines && states[j].lines[k].status in {PendingFire, Triggered}
    ensures states[j].lines[k].status == Triggered ==> states[j].lines[k].order == Some(states[i].accepted[k])
    decreases j - i
  {
    hide Apply, Enabled, Disciplined;
    RunKeepsInv(states, events, j);
    assert LineOk(states[j], k);
    if i < j {
      AcceptedLineNeverRelabelled(states, events, i, j - 1, k);
      RunKeepsInv(states, events, j - 1);
      StepKeepsAccepted(states[j - 1], events[j - 1], k);
    }
  }

  lemma StepKeepsAccepted(s: State, e: Event, k: LineId)
    requires Inv(s) && Enabled(s, e) && k in s.accepted
    ensures k in Apply(s, e).accepted && Apply(s, e).accepted[k] == s.accepted[k]
  {
    assert LineOk(s, k);
  }

  /** Reached by a run in which only the named events were not disciplined. */
  ghost predicate ReachedBut(s: State, bad: set<Event>) {
    exists states: seq<State>, events: seq<Event> ::
      && CodeRun(states, events) && states[|events|] == s
      && forall i :: 0 <= i < |events| ==> Disciplined(states[i], events[i]) || events[i] in bad
  }

  lemma ReachNext(s: State, e: Event, s': State, bad: set<Event>)
    requires ReachedBut(s, bad) && Enabled(s, e) && Apply(s, e) == s' && (Disciplined(s, e) || e in bad)
    ensures ReachedBut(s', bad)
  {
    hide Apply, Enabled, Disciplined;
    var states: seq<State>, events: seq<Event> :|
      && CodeRun(states, events) && states[|events|] == s
      && forall i :: 0 <= i < |events| ==> Disciplined(states[i], events[i]) || events[i] in bad;
    var (states', events') := (states + [s'], events + [e]);
    assert CodeRun(states', events');
    assert states'[|events'|] == s';
  }

  lemma ReachInit(bad: set<Event>)
    ensures ReachedBut(INIT, bad)
  {
    var states: seq<State>, events: seq<Event> := [INIT], [];
    assert CodeRun(states, events) && states[|events|] == INIT;
  }

  /** A fire whose order was refused and which has not yet written so on its line. */
  const REFUSED_FIRE := State(map[1 := Line(PendingFire, Some(0), None)], map[], map[], map[0 := Task(1, FireRefused)])

  lemma ReachRefusedFire(bad: set<Event>)
    ensures ReachedBut(REFUSED_FIRE, bad)
  {
    hide ReachedBut;
    ReachInit(bad);
    var armed := State(map[1 := Line(Working, None, None)], map[], map[], map[]);
    ReachNext(INIT, Arm(1), armed, bad);
    var claimed := State(map[1 := Line(PendingFire, Some(0), None)], map[], map[], map[0 := Task(1, Firing)]);
    ReachNext(armed, Claim(0, 1, 0), claimed, bad);
    ReachNext(claimed, Place(0, Rejected(true)), REFUSED_FIRE, bad);
  }

  /**
   The leftover relabelling is a real exception: recovery sends the order of a line whose fire was
   refused but has not yet written so, and the late write labels the accepted order failed. The
   take-over by recovery is the one step that is not disciplined, and nobody could still send at it.
   */
  lemma LateRelabelHidesAcceptance()
    ensures exists s: State :: ReachedBut(s, {Recover(1, 1, 130_000)}) && 1 in s.accepted && 1 in s.lines && s.lines[1].status == Failed
  {
    hide ReachedBut;
    var bad := {Recover(1, 1, 130_000)};
    ReachRefusedFire(bad);
    var held := State(map[1 := Line(PendingFire, Some(130_000), None)], map[], map[],
                      map[0 := Task(1, FireRefused), 1 := Task(1, Recovering(130_000))]);
    ReachNext(REFUSED_FIRE, Recover(1, 1, 130_000), held, bad);
    var sent := State(held.lines, map[1 := CompletedAudit("A")], map[1 := "A"],
                      map[0 := Task(1, FireRefused), 1 := Task(1, Acknowledged("A", Some(130_000)))]);
    ReachNext(held, Place(1, Sent("A", true)), sent, bad);
    var failed := sent.(lines := map[1 := Line(Failed, Some(130_000), None)],
                        tasks := map[1 := Task(1, Acknowledged("A", Some(130_000)))]);
    ReachNext(sent, FailFire(0), failed, bad);
  }

  /**
   The other half is as real: a fire that stalls for two minutes before it sends. Recovery is refused,
   finds no audit row and labels the line failed, and then the stalled order goes out and is accepted.
   */
  lemma StalledFireHidesAcceptance()
    ensures exists s: State :: ReachedBut(s, {Recover(1, 1, 130_000)}) && 1 in s.accepted && 1 in s.lines && s.lines[1].status == Failed
  {
    hide ReachedBut;
    var bad := {Recover(1, 1, 130_000)};
    ReachInit(bad);
    var armed := State(map[1 := Line(Working, None, None)], map[], map[], map[]);
    ReachNext(INIT, Arm(1), armed, bad);
    var claimed := State(map[1 := Line(PendingFire, Some(0), None)], map[], map[], map[0 := Task(1, Firing)]);
    ReachNext(armed, Claim(0, 1, 0), claimed, bad);
    var held := State(map[1 := Line(PendingFire, Some(130_000), None)], map[], map[],
                      map[0 := Task(1, Firing), 1 := Task(1, Recovering(130_000))]);
    ReachNext(claimed, Recover(1, 1, 130_000), held, bad);
    ReachStalledSend(held, bad);
  }

  lemma ReachStalledSend(held: State, bad: set<Event>)
    requires held == State(map[1 := Line(PendingFire, Some(130_000), None)], map[], map[],
                           map[0 := Task(1, Firing), 1 := Task(1, Recovering(130_000))])
    requires ReachedBut(held, bad)
    ensures exists s: State :: ReachedBut(s, bad) && 1 in s.accepted && 1 in s.lines && s.lines[1].status == Failed
  {
    hide ReachedBut;
    var refused := held.(tasks := map[0 := Task(1, Firing), 1 := Task(1, Doubting(130_000))]);
    ReachNext(held, Place(1, Rejected(true)), refused, bad);
    var failed := State(map[1 := Line(Failed, Some(130_000), None)], map[], map[], map[0 := Task(1, Firing)]);
    ReachNext(refused, Judge(1), failed, bad);
    var sent := State(failed.lines, map[1 := CompletedAudit("A")], map[1 := "A"], map[0 := Task(1, Acknowledged("A", None))]);
    ReachNext(failed, Place(0, Sent("A", true)), sent, bad);
  }
}
