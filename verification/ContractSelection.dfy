/** Classic Auto: from the strike at the money one rung out of the money; and the mid price of a quote. */
module ContractSelection {
  import opened Wrappers
  import opened OccSymbols

  datatype Contract = Contract(symbol: string, optionType: OptionType, strike: real)

  function Distance(a: real, b: real): (d: real)
    ensures d >= 0.0 && (a == b + d || b == a + d)
  {
    if a > b then a - b else b - a
  }

  // ---------------------------------------------------------------------------
  // What is to be found
  // ---------------------------------------------------------------------------

  ghost predicate Listed(contracts: seq<Contract>, optionType: OptionType, strike: real) {
    exists i :: 0 <= i < |contracts| && contracts[i].optionType == optionType && contracts[i].strike == strike
  }

  /** The listed strike nearest to the last price; of two equally near, the one out of the money. */
  ghost predicate AtTheMoney(contracts: seq<Contract>, optionType: OptionType, last: real, atm: real) {
    && Listed(contracts, optionType, atm)
    && forall s :: Listed(contracts, optionType, s) && s != atm ==>
         || Distance(atm, last) < Distance(s, last)
         || (Distance(atm, last) == Distance(s, last) && if optionType.Call? then s < atm else atm < s)
  }

  /** The listed strike right after another one, upwards for calls and downwards for puts. */
  ghost predicate OneRungOut(contracts: seq<Contract>, optionType: OptionType, atm: real, target: real) {
    && Listed(contracts, optionType, target)
    && (if optionType.Call? then atm < target else target < atm)
    && forall s :: Listed(contracts, optionType, s) ==>
         if optionType.Call? then s <= atm || target <= s else atm <= s || s <= target
  }

  ghost predicate AutoTarget(contracts: seq<Contract>, optionType: OptionType, last: real, target: real) {
    exists atm: real :: AtTheMoney(contracts, optionType, last, atm) && OneRungOut(contracts, optionType, atm, target)
  }

  /** There is at most one strike to choose. */
  lemma TargetIsUnique(contracts: seq<Contract>, optionType: OptionType, last: real, a: real, b: real)
    requires AutoTarget(contracts, optionType, last, a) && AutoTarget(contracts, optionType, last, b)
    ensures a == b
  {
    var s: real :| AtTheMoney(contracts, optionType, last, s) && OneRungOut(contracts, optionType, s, a);
    var t: real :| AtTheMoney(contracts, optionType, last, t) && OneRungOut(contracts, optionType, t, b);
    assert s == t;
  }

  // ---------------------------------------------------------------------------
  // The ladder
  // ---------------------------------------------------------------------------

  predicate Ascending(ladder: seq<real>) {
    forall i, j :: 0 <= i < j < |ladder| ==> ladder[i] < ladder[j]
  }

  function WithRung(ladder: seq<real>, strike: real): seq<real> {
    if ladder == [] || ladder[|ladder| - 1] < strike then ladder + [strike]
    else if ladder[|ladder| - 1] == strike then ladder
    else WithRung(ladder[..|ladder| - 1], strike) + [ladder[|ladder| - 1]]
  }

  lemma {:induction false} RungAdded(ladder: seq<real>, strike: real)
    requires Ascending(ladder)
    ensures Ascending(WithRung(ladder, strike))
    ensures forall s :: s in WithRung(ladder, strike) <==> s in ladder || s == strike
  {
    if ladder != [] && ladder[|ladder| - 1] > strike {
      var (front, top) := (ladder[..|ladder| - 1], ladder[|ladder| - 1]);
      RungAdded(front, strike);
      var lower := WithRung(front, strike);
      assert forall i :: 0 <= i < |lower| ==> lower[i] in lower;
      assert ladder == front + [top];
    }
  }

  /** The distinct strikes of one side in ascending order. */
  function Ladder(contracts: seq<Contract>, optionType: OptionType): seq<real> {
    if contracts == [] then []
    else
      var below := Ladder(contracts[..|contracts| - 1], optionType);
      var c := contracts[|contracts| - 1];
      if c.optionType == optionType then WithRung(below, c.strike) else below
  }

  lemma {:induction false} LadderHasListed(contracts: seq<Contract>, optionType: OptionType)
    ensures Ascending(Ladder(contracts, optionType))
    ensures forall s :: s in Ladder(contracts, optionType) <==> Listed(contracts, optionType, s)
  {
    if contracts != [] {
      var (front, c) := (contracts[..|contracts| - 1], contracts[|contracts| - 1]);
      LadderHasListed(front, optionType);
      RungAdded(Ladder(front, optionType), c.strike);
      forall s ensures Listed(contracts, optionType, s) <==>
                       Listed(front, optionType, s) || (c.optionType == optionType && s == c.strike)
      {
        if Listed(front, optionType, s) {
          var i :| 0 <= i < |front| && front[i].optionType == optionType && front[i].strike == s;
          assert contracts[i] == front[i];
        }
        if c.optionType == optionType && s == c.strike {
          assert contracts[|contracts| - 1].strike == s;
        }
      }
    }
  }

  // ---------------------------------------------------------------------------
  // The search
  // ---------------------------------------------------------------------------

  /** The rung is the choice among the first n rungs of the ladder. */
  ghost predicate BestRung(ladder: seq<real>, optionType: OptionType, last: real, atm: nat, n: nat)
    requires n <= |ladder| && atm < n
  {
    forall i :: 0 <= i < n && i != atm ==>
      || Distance(ladder[atm], last) < Distance(ladder[i], last)
      || (Distance(ladder[atm], last) == Distance(ladder[i], last) && if optionType.Call? then i < atm else atm < i)
  }

  /** The first contract of the one strike to choose, and nothing exactly when there is no such strike. */
  method ResolveAutoOtm(contracts: seq<Contract>, optionType: OptionType, last: real) returns (result: Option<Contract>)
    ensures result.None? <==> !exists target: real :: AutoTarget(contracts, optionType, last, target)
    ensures result.Some? ==> AutoTarget(contracts, optionType, last, result.value.strike)
    ensures result.Some? ==> exists k :: 0 <= k < |contracts| && IsFirst(contracts, optionType, k) && contracts[k] == result.value
  {
    hide AtTheMoney, OneRungOut, Listed;
    var ladder := Ladder(contracts, optionType);
    LadderHasListed(contracts, optionType);
    var atm := 0;
    var i := 1;
    while i < |ladder|
      invariant 0 <= atm < i && (|ladder| > 0 ==> i <= |ladder|)
      invariant |ladder| > 0 ==> BestRung(ladder, optionType, last, atm, i)
    {
      var distance := Distance(ladder[i], last);
      var best := Distance(ladder[atm], last);
      if distance < best || (distance == best && optionType.Call?) { atm := i; }
      i := i + 1;
    }
    if |ladder| > 0 { BestIsAtTheMoney(contracts, optionType, last, ladder, atm); }
    var at := if optionType.Call? then atm + 1 else atm - 1;
    if !(0 <= at < |ladder|) {
      NothingFurtherOut(contracts, optionType, last, ladder, atm);
      return None;
    }
    NextIsOneRungOut(contracts, optionType, ladder, atm, at);
    assert AutoTarget(contracts, optionType, last, ladder[at]);
    result := FindExplicitOption(contracts, optionType, ladder[at]);
    assert Listed(contracts, optionType, ladder[at]);
  }

  lemma BestIsAtTheMoney(contracts: seq<Contract>, optionType: OptionType, last: real, ladder: seq<real>, atm: nat)
    requires Ascending(ladder) && forall s :: s in ladder <==> Listed(contracts, optionType, s)
    requires atm < |ladder| && BestRung(ladder, optionType, last, atm, |ladder|)
    ensures AtTheMoney(contracts, optionType, last, ladder[atm])
  {
    hide Listed;
    assert ladder[atm] in ladder;
    forall s | Listed(contracts, optionType, s) && s != ladder[atm]
      ensures Distance(ladder[atm], last) < Distance(s, last)
           || (Distance(ladder[atm], last) == Distance(s, last) && if optionType.Call? then s < ladder[atm] else ladder[atm] < s)
    {
      var i :| 0 <= i < |ladder| && ladder[i] == s;
    }
  }

  lemma NextIsOneRungOut(contracts: seq<Contract>, optionType: OptionType, ladder: seq<real>, atm: nat, at: nat)
    requires Ascending(ladder) && forall s :: s in ladder <==> Listed(contracts, optionType, s)
    requires atm < |ladder| && at < |ladder| && at == if optionType.Call? then atm + 1 else atm - 1
    ensures OneRungOut(contracts, optionType, ladder[atm], ladder[at]) && Listed(contracts, optionType, ladder[at])
  {
    hide Listed;
    assert ladder[at] in ladder;
    forall s | Listed(contracts, optionType, s)
      ensures if optionType.Call? then s <= ladder[atm] || ladder[at] <= s else ladder[atm] <= s || s <= ladder[at]
    {
      var i :| 0 <= i < |ladder| && ladder[i] == s;
    }
  }

  lemma NothingFurtherOut(contracts: seq<Contract>, optionType: OptionType, last: real, ladder: seq<real>, atm: nat)
    requires Ascending(ladder) && forall s :: s in ladder <==> Listed(contracts, optionType, s)
    requires ladder != [] ==> atm < |ladder| && AtTheMoney(contracts, optionType, last, ladder[atm])
    requires var at := if optionType.Call? then atm + 1 else atm - 1; !(0 <= at < |ladder|)
    ensures !exists target: real :: AutoTarget(contracts, optionType, last, target)
  {
    if ladder == [] {
      forall s: real ensures !Listed(contracts, optionType, s) { assert s !in ladder; }
    } else {
      forall s | Listed(contracts, optionType, s)
        ensures if optionType.Call? then s <= ladder[atm] else ladder[atm] <= s
      {
        var i :| 0 <= i < |ladder| && ladder[i] == s;
      }
      forall s: real, target: real | AtTheMoney(contracts, optionType, last, s)
        ensures !OneRungOut(contracts, optionType, s, target)
      {
        assert s == ladder[atm];
      }
    }
  }

  /** No earlier contract has the same side and strike. */
  ghost predicate IsFirst(contracts: seq<Contract>, optionType: OptionType, k: nat)
    requires k < |contracts|
  {
    && contracts[k].optionType == optionType
    && forall i :: 0 <= i < k ==> !(contracts[i].optionType == optionType && contracts[i].strike == contracts[k].strike)
  }

  method FindExplicitOption(contracts: seq<Contract>, optionType: OptionType, strike: real) returns (found: Option<Contract>)
    ensures found.Some? <==> Listed(contracts, optionType, strike)
    ensures found.Some? ==> found.value.strike == strike
    ensures found.Some? ==> exists k :: 0 <= k < |contracts| && IsFirst(contracts, optionType, k) && contracts[k] == found.value
  {
    var k := 0;
    while k < |contracts|
      invariant k <= |contracts|
      invariant forall i :: 0 <= i < k ==> !(contracts[i].optionType == optionType && contracts[i].strike == strike)
    {
      if contracts[k].optionType == optionType && contracts[k].strike == strike {
        assert IsFirst(contracts, optionType, k);
        return Some(contracts[k]);
      }
      k := k + 1;
    }
    found := None;
  }

  // ---------------------------------------------------------------------------
  // Mid price
  // ---------------------------------------------------------------------------

  const MAX_OPTION_PRICE := 100_000.0

  datatype MidError = InvalidSpread | OutOfRange

  function ComputeMid(bid: real, ask: real): Result<real, MidError> {
    if !(bid > 0.0) || !(ask > 0.0) || bid > ask || ask > MAX_OPTION_PRICE then Failure(InvalidSpread)
    else
      var mid := Round((bid + ask) / 2.0 * 100.0) as real / 100.0;
      if mid > MAX_OPTION_PRICE then Failure(OutOfRange) else Success(mid)
  }

  /**
   A mid is computed for every uncrossed positive quote within the ceiling; the final range check never
   refuses one. It is the midpoint in whole cents, halves rounded up, and between the sides when these are whole cents.
   */
  lemma MidOfQuote(bid: real, ask: real)
    ensures ComputeMid(bid, ask).Success? <==> 0.0 < bid <= ask <= 100_000.0
    ensures ComputeMid(bid, ask).Failure? ==> ComputeMid(bid, ask).error == InvalidSpread
    ensures ComputeMid(bid, ask).Success? ==>
              var mid := ComputeMid(bid, ask).value;
              && IsCents(mid) && -0.005 < mid - (bid + ask) / 2.0 <= 0.005
              && (IsCents(bid) && IsCents(ask) ==> bid <= mid <= ask)
  {
    if 0.0 < bid <= ask <= MAX_OPTION_PRICE {
      var cents := (bid + ask) / 2.0 * 100.0;
      RoundedIsNear(cents);
      assert Round(cents) <= 10_000_000;
      CentsOf(Round(cents));
      if IsCents(bid) && IsCents(ask) { RoundedBetween((bid * 100.0).Floor, (ask * 100.0).Floor, cents); }
    }
  }

  lemma RoundedIsNear(cents: real)
    ensures cents - 0.5 < Round(cents) as real <= cents + 0.5
  {
  }

  lemma CentsOf(n: int)
    ensures n as real / 100.0 * 100.0 == n as real && IsCents(n as real / 100.0)
  {
  }

  lemma RoundedBetween(b: int, a: int, cents: real)
    requires b as real <= cents <= a as real
    ensures b <= Round(cents) <= a
  {
  }

  predicate IsCents(price: real) { (price * 100.0).Floor as real == price * 100.0 }

  /** A quote below one cent in total is rounded away: the mid is zero exactly then. */
  lemma MidIsZeroIff(bid: real, ask: real)
    requires ComputeMid(bid, ask).Success?
    ensures ComputeMid(bid, ask).value == 0.0 <==> bid + ask < 0.01
  {
    var cents := (bid + ask) / 2.0 * 100.0;
    var rounded := Round(cents);
    assert cents - 0.5 < rounded as real <= cents + 0.5;
    assert rounded == 0 <==> cents < 0.5;
  }
}
