/** Recurring days, and the next few of them from a day on. */
module Cycles {
  /** A cycle names its days in ascending order. */
  ghost predicate Ascends(cycle: int -> int) {
    forall a, b :: a < b ==> cycle(a) < cycle(b)
  }

  ghost predicate Occurs(cycle: int -> int, day: int) {
    exists k: int :: cycle(k) == day
  }

  /** The days with a property from today up to a bound. */
  ghost function Between(has: int -> bool, today: int, bound: int): set<int> {
    set d: int | today <= d < bound && has(d)
  }

  /** A day is one of the next so many with a property: fewer than that many come before it. */
  ghost predicate AmongNext(day: int, count: nat, has: int -> bool, today: int) {
    has(day) && today <= day && |Between(has, today, day)| < count
  }

  lemma {:induction false} SubsetSize(a: set<int>, b: set<int>)
    requires a <= b
    ensures |a| <= |b|
  {
    assert b == a + (b - a);
  }

  /** A search that has collected everything up to a bound has collected the next ones. */
  lemma CollectedIsNext(days: set<int>, has: int -> bool, today: int, bound: int, day: int)
    requires days == Between(has, today, bound)
    ensures day in days <==> AmongNext(day, |days|, has, today)
  {
    var earlier := Between(has, today, day);
    if day in days {
      assert earlier <= days - {day};
      SubsetSize(earlier, days - {day});
    } else if has(day) && today <= day {
      assert days <= earlier;
      SubsetSize(days, earlier);
    }
  }

  lemma Collected(days: set<int>, has: int -> bool, today: int, bound: int)
    requires days == Between(has, today, bound)
    ensures forall d :: d in days <==> AmongNext(d, |days|, has, today)
  {
    forall d ensures d in days <==> AmongNext(d, |days|, has, today) { CollectedIsNext(days, has, today, bound, d); }
  }

  /** Nothing of a cycle lies strictly between two of its neighbours. */
  lemma CycleStep(cycle: int -> int, k: int, has: int -> bool, today: int)
    requires Ascends(cycle) && forall d :: has(d) <==> Occurs(cycle, d)
    ensures Between(has, today, cycle(k + 1)) == Between(has, today, cycle(k)) + if cycle(k) >= today then {cycle(k)} else {}
    ensures cycle(k) < cycle(k + 1)
  {
    assert Occurs(cycle, cycle(k));
    forall d | has(d) && d < cycle(k + 1) ensures d <= cycle(k) {
      var j: int :| cycle(j) == d;
      assert k + 1 < j ==> cycle(k + 1) < cycle(j);
      assert j < k ==> cycle(j) < cycle(k);
    }
  }

  lemma CycleStart(cycle: int -> int, k: int, has: int -> bool, today: int)
    requires Ascends(cycle) && (forall d :: has(d) <==> Occurs(cycle, d)) && cycle(k - 1) < today
    ensures Between(has, today, cycle(k)) == {}
  {
    forall d | has(d) && d < cycle(k) ensures d < today {
      var j: int :| cycle(j) == d;
      assert k < j ==> cycle(k) < cycle(j);
      assert j < k - 1 ==> cycle(j) < cycle(k - 1);
    }
  }

  /** The days in ascending order. */
  function Ascending(days: set<int>): (out: seq<int>)
    ensures forall i, j :: 0 <= i < j < |out| ==> out[i] < out[j]
    ensures forall d :: d in out <==> d in days
  {
    if days == {} then []
    else
      HasFirst(days);
      var first :| first in days && forall d :: d in days ==> first <= d;
      [first] + Ascending(days - {first})
  }

  lemma HasFirst(days: set<int>)
    requires days != {}
    ensures exists first :: first in days && forall d :: d in days ==> first <= d
  {
    var first := Least(days);
  }

  lemma Member(days: set<int>) returns (day: int)
    requires days != {}
    ensures day in days
  {
    assert (forall d: int :: d !in days) ==> days == {};
    day :| day in days;
  }

  lemma {:induction false} Least(days: set<int>) returns (first: int)
    requires days != {}
    ensures first in days && forall d :: d in days ==> first <= d
  {
    var day := Member(days);
    var rest := days - {day};
    if rest == {} {
      assert days == {day};
      first := day;
    } else {
      var other := Least(rest);
      first := if day < other then day else other;
      assert days == rest + {day};
    }
  }
}
