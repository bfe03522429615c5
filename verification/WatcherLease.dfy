/**
 The watcher's timed single-owner lease. One database row, many instances, each trusting its own
 clock: an instance believes it owns the lease for ten seconds after the clock reading with which
 it last took the row, while the row itself stands for thirty.
 */
module WatcherLease {
  import opened Wrappers

  type Instance = nat
  type Time = int

  const LEASE_MS: int := 30_000
  const LEASE_RENEW_MS: int := 10_000

  datatype Row = Row(owner: Instance, expiresAt: Time)
  datatype Belief = Belief(owns: bool, renewedAt: Time)

  /**
   How the database answers one attempt. The reply to the update or to the insert may be lost, and
   the write may have landed all the same; an insert that another instance's insert overtook is one
   that has not landed.
   */
  datatype Database = Reachable | UpdateLost(landed: bool) | CreateLost(landed: bool)

  predicate Takeable(row: Option<Row>, me: Instance, now: Time) {
    row.Some? && (row.value.expiresAt < now || row.value.owner == me)
  }

  predicate Believes(belief: Belief, now: Time) {
    belief.owns && now - belief.renewedAt < LEASE_RENEW_MS
  }

  datatype Held = Held(row: Option<Row>, belief: Belief, passed: bool)

  function HoldLease(row: Option<Row>, belief: Belief, me: Instance, now: Time, database: Database): Held {
    var mine := Some(Row(me, now + LEASE_MS));
    if Believes(belief, now) then Held(row, belief, true)
    else if database.UpdateLost? then
      Held(if database.landed && Takeable(row, me, now) then mine else row, belief.(owns := false), false)
    else if Takeable(row, me, now) then Held(mine, Belief(true, now), true)
    else if database.CreateLost? then
      Held(if database.landed && row.None? then mine else row, belief.(owns := false), false)
    else if row.None? then Held(mine, Belief(true, now), true)
    else Held(row, belief.(owns := false), false)
  }

  /**
   When one call passes and what it leaves: it passes on its own belief of less than ten seconds, or when
   its reply arrives from a row that has run out, was its own, or was not there. The row is then its own
   for thirty seconds; it is that too, without the call passing, when only the reply was lost.
   */
  lemma HoldMeans(row: Option<Row>, belief: Belief, me: Instance, now: Time, database: Database)
    ensures var held := HoldLease(row, belief, me, now, database);
            var believed := belief.owns && now < belief.renewedAt + 10_000;
            var update := row.Some? && (row.value.expiresAt < now || row.value.owner == me);
            var updated := update && (!database.UpdateLost? || database.landed);
            var inserted := row.None? && !database.UpdateLost? && (!database.CreateLost? || database.landed);
            && (held.passed <==> believed || (update && !database.UpdateLost?) || (row.None? && database.Reachable?))
            && (!believed && (updated || inserted) ==> held.row == Some(Row(me, now + 30_000)))
            && (believed || !(updated || inserted) ==> held.row == row)
            && (if believed then held.belief == belief
                else if held.passed then held.belief == Belief(true, now)
                else !held.belief.owns && held.belief.renewedAt == belief.renewedAt)
  {
  }

  /** The lease table: one row at most. */
  class LeaseTable {
    var row: Option<Row>

    constructor ()
      ensures row == None
    {
      row := None;
    }

    /** Takes the row over when it has expired or is already this owner's. */
    method UpdateMany(me: Instance, now: Time, expiresAt: Time) returns (count: nat)
      modifies this
      ensures count == 1 <==> Takeable(old(row), me, now)
      ensures count <= 1
      ensures row == if count == 1 then Some(Row(me, expiresAt)) else old(row)
    {
      if row.Some? && (row.value.expiresAt < now || row.value.owner == me) {
        row := Some(Row(me, expiresAt));
        return 1;
      }
      return 0;
    }

    /** Inserts the row, refused when one exists. */
    method Create(me: Instance, expiresAt: Time) returns (created: bool)
      modifies this
      ensures created == old(row).None?
      ensures row == if created then Some(Row(me, expiresAt)) else old(row)
    {
      created := row.None?;
      if created {
        row := Some(Row(me, expiresAt));
      }
    }
  }

  class WatcherInstance {
    const me: Instance
    var belief: Belief

    constructor (me: Instance)
      ensures this.me == me && belief == Belief(false, 0)
    {
      this.me := me;
      belief := Belief(false, 0);
    }

    method Hold(table: LeaseTable, now: Time, database: Database) returns (passed: bool)
      modifies this, table
      ensures var held := HoldLease(old(table.row), old(belief), me, now, database);
              table.row == held.row && belief == held.belief && passed == held.passed
    {
      if belief.owns && now - belief.renewedAt < LEASE_RENEW_MS {
        return true;
      }
      var taken := 0;
      if !database.UpdateLost? || database.landed {
        taken := table.UpdateMany(me, now, now + LEASE_MS);
      }
      if database.UpdateLost? {
        belief := belief.(owns := false);
        return false;
      }
      if taken == 0 {
        var created := false;
        if !database.CreateLost? || database.landed {
          created := table.Create(me, now + LEASE_MS);
        }
        if !created || database.CreateLost? {
          belief := belief.(owns := false);
          return false;
        }
      }
      belief := Belief(true, now);
      passed := true;
    }
  }

  // ---------------------------------------------------------------------------
  // Runs of many instances
  // ---------------------------------------------------------------------------

  /** One call of holdLease, in database order, with the reading of the caller's own clock. */
  datatype Call = Call(me: Instance, now: Time, database: Database)

  datatype World = World(row: Option<Row>, beliefs: map<Instance, Belief>)

  function BeliefOf(world: World, me: Instance): Belief {
    if me in world.beliefs then world.beliefs[me] else Belief(false, 0)
  }

  function Step(world: World, call: Call): World {
    var held := HoldLease(world.row, BeliefOf(world, call.me), call.me, call.now, call.database);
    World(held.row, world.beliefs[call.me := held.belief])
  }

  predicate Passes(world: World, call: Call) {
    HoldLease(world.row, BeliefOf(world, call.me), call.me, call.now, call.database).passed
  }

  function After(calls: seq<Call>): World {
    if calls == [] then World(None, map[]) else Step(After(calls[..|calls| - 1]), calls[|calls| - 1])
  }

  /** The clock reading of the renewal that covers a passing call, its own when it took the row. */
  function RenewalOf(calls: seq<Call>, i: nat): Time
    requires i < |calls|
  {
    BeliefOf(After(calls[..i + 1]), calls[i].me).renewedAt
  }

  /** skew(i) is how far instance i's clock runs ahead of true time. */
  ghost predicate ClocksOk(calls: seq<Call>, skew: Instance -> int, bound: int) {
    && (forall i, j :: 0 <= i <= j < |calls| && calls[i].me == calls[j].me ==> calls[i].now <= calls[j].now)
    && (forall a, b :: skew(a) - skew(b) <= bound)
  }

  /** True time at which the standing row was renewed: it expires thirty seconds later on its owner's clock. */
  function RowSince(row: Row, skew: Instance -> int): Time {
    row.expiresAt - LEASE_MS - skew(row.owner)
  }

  ghost predicate IsRenewal(calls: seq<Call>, p: nat, me: Instance, at: Time) {
    p < |calls| && calls[p].me == me && calls[p].now == at && After(calls[..p + 1]).row == Some(Row(me, at + LEASE_MS))
  }

  /** A belief comes from a renewal that wrote the row. */
  lemma {:induction false} BeliefHasRenewal(calls: seq<Call>, n: nat, me: Instance) returns (p: nat)
    requires n <= |calls| && BeliefOf(After(calls[..n]), me).owns
    ensures p < n && IsRenewal(calls, p, me, BeliefOf(After(calls[..n]), me).renewedAt)
  {
    assert calls[..n][..n - 1] == calls[..n - 1];
    var (before, call) := (After(calls[..n - 1]), calls[n - 1]);
    if call.me == me && !Believes(BeliefOf(before, me), call.now) {
      p := n - 1;
    } else {
      p := BeliefHasRenewal(calls, n - 1, me);
    }
  }

  /** The row was written by its owner at one of that owner's own clock readings. */
  lemma {:induction false} RowHasRenewal(calls: seq<Call>, n: nat) returns (p: nat)
    requires n <= |calls| && After(calls[..n]).row.Some?
    ensures p < n && calls[p].me == After(calls[..n]).row.value.owner
    ensures After(calls[..n]).row.value.expiresAt == calls[p].now + LEASE_MS
  {
    assert calls[..n][..n - 1] == calls[..n - 1];
    if After(calls[..n]).row == After(calls[..n - 1]).row {
      p := RowHasRenewal(calls, n - 1);
    } else {
      p := n - 1;
    }
  }

  lemma RowStep(world: World, call: Call, skew: Instance -> int)
    requires world.row.Some? && skew(call.me) - skew(world.row.value.owner) <= 20_001
    requires call.me == world.row.value.owner ==> world.row.value.expiresAt <= call.now + 30_000
    ensures var (row, after) := (world.row.value, Step(world, call).row);
            after.Some? &&
            RowSince(after.value, skew) >= RowSince(row, skew) + (if row.owner == after.value.owner then 0 else 10_000)
  {
  }

  /**
   Renewals of the row move forward in true time, and a change of owner moves them past the ten
   seconds the previous owner may still believe in.
   */
  lemma {:induction false} RowMovesForward(calls: seq<Call>, skew: Instance -> int, i: nat, j: nat)
    requires ClocksOk(calls, skew, 20_001) && i <= j <= |calls|
    requires After(calls[..i]).row.Some?
    ensures After(calls[..j]).row.Some?
    ensures var (first, second) := (After(calls[..i]).row.value, After(calls[..j]).row.value);
            RowSince(second, skew) >= RowSince(first, skew) + (if first.owner == second.owner then 0 else 10_000)
    decreases j - i
  {
    hide Step, HoldLease;
    if i < j {
      RowMovesForward(calls, skew, i, j - 1);
      assert calls[..j][..j - 1] == calls[..j - 1];
      var p := RowHasRenewal(calls, j - 1);
      RowStep(After(calls[..j - 1]), calls[j - 1], skew);
    }
  }

  lemma PassIsCovered(calls: seq<Call>, skew: Instance -> int, i: nat) returns (p: nat)
    requires ClocksOk(calls, skew, 20_001) && i < |calls| && Passes(After(calls[..i]), calls[i])
    ensures p <= i && IsRenewal(calls, p, calls[i].me, RenewalOf(calls, i))
    ensures 0 <= calls[i].now - RenewalOf(calls, i) < 10_000
  {
    assert calls[..i + 1][..i] == calls[..i];
    p := BeliefHasRenewal(calls, i + 1, calls[i].me);
  }

  /**
   Exclusion: when two instances both pass holdLease, the ten-second windows of true time their
   renewals cover do not overlap, for any clock skew up to 20001 milliseconds: the lease less the renewal
   time, and one more because a row is taken over only after its last millisecond. Each passes inside its
   own window.
   */
  lemma NeverBothHold(calls: seq<Call>, skew: Instance -> int, i: nat, j: nat)
    requires ClocksOk(calls, skew, 20_001) && i < |calls| && j < |calls|
    requires calls[i].me != calls[j].me
    requires Passes(After(calls[..i]), calls[i]) && Passes(After(calls[..j]), calls[j])
    ensures var (first, second) := (RenewalOf(calls, i) - skew(calls[i].me), RenewalOf(calls, j) - skew(calls[j].me));
            first + 10_000 <= second || second + 10_000 <= first
    ensures 0 <= calls[i].now - RenewalOf(calls, i) < 10_000
    ensures 0 <= calls[j].now - RenewalOf(calls, j) < 10_000
  {
    hide After, ClocksOk, Passes;
    var p := PassIsCovered(calls, skew, i);
    var q := PassIsCovered(calls, skew, j);
    if p < q {
      RowMovesForward(calls, skew, p + 1, q + 1);
    } else {
      RowMovesForward(calls, skew, q + 1, p + 1);
    }
  }

  /** Two instances pass at the same instant of true time. */
  ghost predicate HeldTwiceAtOnce(calls: seq<Call>, skew: Instance -> int) {
    exists i, j :: 0 <= i < j < |calls| && calls[i].me != calls[j].me &&
      Passes(After(calls[..i]), calls[i]) && Passes(After(calls[..j]), calls[j]) &&
      calls[i].now - skew(calls[i].me) == calls[j].now - skew(calls[j].me)
  }

  /** That is the limit: with one millisecond more, two instances can hold at once. */
  lemma SkewBoundIsTight()
    ensures exists calls: seq<Call>, skew: Instance -> int ::
              ClocksOk(calls, skew, 20_002) && HeldTwiceAtOnce(calls, skew)
  {
    var calls := [Call(0, 0, Reachable), Call(0, 9_999, Reachable), Call(1, 30_001, Reachable)];
    var skew: Instance -> int := (me: Instance) => if me == 1 then 20_002 else 0;
    assert ClocksOk(calls, skew, 20_002);
    hide After, Passes, Step;
    BothPass(calls[0], calls[1], calls[2]);
    assert calls[..1] == [calls[0]] && calls[..2] == [calls[0], calls[1]];
    assert calls[1].now - skew(calls[1].me) == calls[2].now - skew(calls[2].me);
    assert HeldTwiceAtOnce(calls, skew);
  }

  lemma BothPass(a: Call, b: Call, c: Call)
    requires a == Call(0, 0, Reachable) && b == Call(0, 9_999, Reachable) && c == Call(1, 30_001, Reachable)
    ensures Passes(After([a]), b) && Passes(After([a, b]), c)
  {
    assert [a][..0] == [] && [a, b][..1] == [a];
    assert After([]) == World(None, map[]);
    assert After([a]) == Step(World(None, map[]), a);
    assert After([a, b]) == Step(After([a]), b);
  }
}
