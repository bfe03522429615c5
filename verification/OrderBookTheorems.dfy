/** What holds of the Level 2 service under every order of subscribing, leaving, answering, resetting and firing timers. */
module OrderBookTheorems {
  import opened Wrappers
  import opened OrderBookRules
  import opened OrderBookInvariant

  /**
   Between callbacks every subscribed symbol has exactly one of a request in flight and an armed poll
   timer, and the request in flight is a suspended refresh of the current generation.
   */
  lemma ExactlyOneDriver(config: Config, events: seq<Event>, symbol: string)
    requires symbol in After(config, events).states
    ensures var svc := After(config, events); var state := svc.states[symbol];
            && |state.subscribers| > 0
            && (state.inFlight <==> state.pollTimer.None?)
            && (state.inFlight <==> exists key :: key in svc.refreshes && key.symbol == symbol && IsCurrent(svc, key))
            && (forall key, other ::
                  (key in svc.refreshes && other in svc.refreshes && key.symbol == other.symbol == symbol && IsCurrent(svc, key) && IsCurrent(svc, other))
                  ==> key == other)
  {
    EveryServiceIsOk(config, events);
    var svc := After(config, events);
    hide After, Counted, KeysOk, RetryDelay;
    var state := svc.states[symbol];
    assert Plain(svc, state) && Driven(svc, symbol, state);
    if state.inFlight { assert IsCurrent(svc, KeyOf(symbol, state)); }
  }

  /** The gauges say what the maps hold: the symbols, and the subscriptions over all of them. */
  lemma GaugesAgree(config: Config, events: seq<Event>)
    ensures var svc := After(config, events);
            && svc.activeSymbolGauge == |svc.states| <= config.maxSymbols
            && svc.subscriberGauge == |Pairs(svc.states)|
            && (svc.sessionTimer <==> |svc.states| > 0)
  {
    EveryServiceIsOk(config, events);
    ConfigKept(config, events);
  }

  lemma {:induction false} ConfigKept(config: Config, events: seq<Event>)
    ensures After(config, events).config == config
  {
    if events != [] {
      var before := After(config, events[..|events| - 1]);
      ConfigKept(config, events[..|events| - 1]);
      if Due(before, events[|events| - 1]) { StepSucceeds(before, events[|events| - 1]); }
    }
  }

  /** The window kept for the indicators is bounded and never mixes two sessions. */
  lemma HistoryIsOneSession(config: Config, events: seq<Event>, symbol: string)
    requires symbol in After(config, events).states
    ensures var state := After(config, events).states[symbol];
            |state.history| <= config.maxHistory && forall i :: 0 <= i < |state.history| ==> state.history[i].session == state.session
  {
    EveryServiceIsOk(config, events);
    ConfigKept(config, events);
    assert Plain(After(config, events), After(config, events).states[symbol]);
  }

  // ---------------------------------------------------------------------------
  // Generations never come back
  // ---------------------------------------------------------------------------

  /** States are new, or the same object at the same or a later generation. */
  ghost predicate Succeeds(svc: Service, after: Service) {
    && svc.config == after.config && svc.nextId <= after.nextId
    && (forall s :: s in after.states ==>
          svc.nextId <= after.states[s].id ||
          (s in svc.states && svc.states[s].id == after.states[s].id && svc.states[s].generation <= after.states[s].generation))
  }

  lemma SucceedsTwice(a: Service, b: Service, c: Service)
    requires Succeeds(a, b) && Succeeds(b, c)
    ensures Succeeds(a, c)
  {
  }

  lemma PostponeSucceeds(svc: Service, symbol: string, reason: Reason)
    requires symbol in svc.states
    ensures Succeeds(svc, Postpone(svc, symbol, reason))
  {
  }

  lemma BeginSucceeds(svc: Service, symbol: string, preflight: Preflight, open: bool)
    requires symbol in svc.states
    ensures Succeeds(svc, BeginRefresh(svc, symbol, preflight, open))
  {
    hide RetryDelay;
  }

  lemma SubscribeSucceeds(svc: Service, client: Client, symbol: string, requested: int, session: string, preflight: Preflight, open: bool)
    ensures Succeeds(svc, Subscribe(svc, client, symbol, requested, session, preflight, open))
  {
    hide BeginRefresh, ClampLevels;
    if symbol in svc.states || |svc.states| < svc.config.maxSymbols {
      var known := if symbol in svc.states then svc else Created(svc, symbol, session);
      var joined := Joined(known, symbol, client, requested);
      BeginSucceeds(joined, symbol, preflight, open);
      SucceedsTwice(svc, joined, BeginRefresh(joined, symbol, preflight, open));
    }
  }

  lemma UnsubscribeSucceeds(svc: Service, client: Client, symbol: string)
    ensures Succeeds(svc, Unsubscribe(svc, client, symbol))
  {
  }

  lemma {:induction false} LeaveAllSucceeds(svc: Service, client: Client, symbols: seq<string>)
    ensures Succeeds(svc, LeaveAll(svc, client, symbols))
    decreases symbols
  {
    hide Unsubscribe;
    if symbols != [] {
      var next := Unsubscribe(svc, client, symbols[0]);
      UnsubscribeSucceeds(svc, client, symbols[0]);
      LeaveAllSucceeds(next, client, symbols[1..]);
      SucceedsTwice(svc, next, LeaveAll(next, client, symbols[1..]));
    }
  }

  lemma {:induction false} TeardownAllSucceeds(svc: Service, symbols: seq<string>)
    ensures Succeeds(svc, TeardownAll(svc, symbols))
    decreases symbols
  {
    if symbols != [] {
      var next := if symbols[0] in svc.states then Teardown(svc, symbols[0]) else svc;
      TeardownAllSucceeds(next, symbols[1..]);
      SucceedsTwice(svc, next, TeardownAll(next, symbols[1..]));
    }
  }

  lemma FetchedSucceeds(svc: Service, key: Key, answer: Answer, depth: int)
    requires key in svc.refreshes
    ensures Succeeds(svc, Fetched(svc, key, answer, depth))
  {
    hide RetryDelay, Accept, Rest, Postpone, Succeeds;
    if !IsCurrent(svc, key) {
      SameStatesSucceed(svc, Fetched(svc, key, answer, depth));
    } else if answer.NotAvailable? && !answer.retryable {
      RefusedSucceeds(svc, key, depth);
    } else if answer.NotAvailable? {
      PostponeSucceeds(svc, key.symbol, FromProvider(true));
    } else if !answer.inSession {
      PostponeSucceeds(svc, key.symbol, MarketClosed);
    } else {
      AcceptedSucceeds(svc, key.symbol, answer.snap, depth);
    }
  }

  lemma SameStatesSucceed(svc: Service, after: Service)
    requires after.states == svc.states && after.config == svc.config && after.nextId == svc.nextId
    ensures Succeeds(svc, after)
  {
  }

  lemma RefusedSucceeds(svc: Service, key: Key, depth: int)
    requires key in svc.refreshes && IsCurrent(svc, key)
    ensures Succeeds(svc, Fetched(svc, key, NotAvailable(false), depth))
  {
  }

  lemma AcceptedSucceeds(svc: Service, symbol: string, snap: Snap, depth: int)
    requires symbol in svc.states
    ensures var calm := svc.(states := svc.states[symbol := svc.states[symbol].(retryAttempt := 0)]);
            symbol in Accept(calm, symbol, snap, depth).states && Succeeds(svc, Rest(Accept(calm, symbol, snap, depth), symbol))
  {
    hide RetryDelay, LastOf;
  }

  lemma ResetSymbolSucceeds(svc: Service, symbol: string, session: string, outlook: Outlook)
    requires symbol in svc.states
    ensures Succeeds(svc, ResetSymbol(svc, symbol, session, outlook))
  {
    hide BeginRefresh;
    var told := Announce(svc, symbol, Renewed(svc.states[symbol], session), Status(NoData));
    BeginSucceeds(told, symbol, outlook.preflight, outlook.open);
    SucceedsTwice(svc, told, ResetSymbol(svc, symbol, session, outlook));
  }

  lemma {:induction false} ResetAllSucceeds(svc: Service, symbols: seq<string>, session: string, outlooks: map<string, Outlook>)
    ensures Succeeds(svc, ResetAll(svc, symbols, session, outlooks))
    decreases symbols
  {
    hide ResetSymbol;
    if symbols != [] {
      var outlook := if symbols[0] in outlooks then outlooks[symbols[0]] else Outlook(Proceed, false);
      var next := if symbols[0] in svc.states then ResetSymbol(svc, symbols[0], session, outlook) else svc;
      if symbols[0] in svc.states { ResetSymbolSucceeds(svc, symbols[0], session, outlook); }
      ResetAllSucceeds(next, symbols[1..], session, outlooks);
      SucceedsTwice(svc, next, ResetAll(next, symbols[1..], session, outlooks));
    }
  }

  lemma StepSucceeds(svc: Service, e: Event)
    requires Due(svc, e)
    ensures Succeeds(svc, Apply(svc, e))
  {
    hide LeaveAll, TeardownAll, ResetAll, Fetched, Postpone, BeginRefresh, Subscribe, Unsubscribe;
    match e
    case Subscribes(client, symbol, requested, session, preflight, open) =>
      SubscribeSucceeds(svc, client, symbol, requested, session, preflight, open);
    case Unsubscribes(client, symbol) => UnsubscribeSucceeds(svc, client, symbol);
    case Disconnects(client) => LeaveAllSucceeds(svc, client, svc.order);
    case Shutdown => TeardownAllSucceeds(svc, svc.order);
    case Poll(symbol, preflight, open) => BeginSucceeds(svc, symbol, preflight, open);
    case Grant(key, open, depth) => if IsCurrent(svc, key) { PostponeSucceeds(svc, key.symbol, MarketClosed); }
    case Fetch(key, answer, depth) => FetchedSucceeds(svc, key, answer, depth);
    case Throw(key) =>
      if IsCurrent(svc, key) {
        PostponeSucceeds(svc, key.symbol, if svc.refreshes[key].AtLimiter? then LimiterUnavailable else ProviderError);
      }
    case StaleTimer(symbol, now) =>
    case Boundary(session, outlooks) =>
      var before := svc.(sessionTimer := false);
      ResetAllSucceeds(before, svc.order, session, outlooks);
      var after := ResetAll(before, svc.order, session, outlooks);
      SucceedsTwice(svc, before, after);
      SucceedsTwice(svc, after, after.(sessionTimer := |after.states| > 0));
  }

  /** The refresh's state object was torn down, or moved on to a later generation. */
  ghost predicate Outdated(svc: Service, key: Key) {
    && key.id < svc.nextId
    && (key.symbol in svc.states && svc.states[key.symbol].id == key.id ==> key.generation < svc.states[key.symbol].generation)
  }

  lemma OutdatedStays(svc: Service, after: Service, key: Key)
    requires Outdated(svc, key) && Succeeds(svc, after)
    ensures Outdated(after, key)
  {
  }

  lemma {:induction false} OutdatedForever(config: Config, events: seq<Event>, later: seq<Event>, key: Key)
    requires Outdated(After(config, events), key)
    ensures Outdated(After(config, events + later), key)
  {
    hide Apply, Due, Outdated, Succeeds;
    if later == [] {
      assert events + later == events;
    } else {
      var n := |later| - 1;
      OutdatedForever(config, events, later[..n], key);
      assert (events + later)[..|events + later| - 1] == events + later[..n];
      var before := After(config, events + later[..n]);
      if Due(before, later[n]) {
        StepSucceeds(before, later[n]);
        OutdatedStays(before, Apply(before, later[n]), key);
      }
    }
  }

  /**
   A refresh overtaken once, by a teardown or a new session, never publishes, schedules, tears down or
   counts anything, however late it is answered and whatever happened in between.
   */
  lemma OvertakenRefreshIsSilent(config: Config, events: seq<Event>, later: seq<Event>, key: Key, e: Event)
    requires key in After(config, events).refreshes && !IsCurrent(After(config, events), key)
    requires Due(After(config, events + later), e) && (e.Grant? || e.Fetch? || e.Throw?) && e.key == key
    ensures var svc := After(config, events + later); Apply(svc, e) == svc.(refreshes := svc.refreshes - {key})
  {
    EveryServiceIsOk(config, events);
    hide After;
    var svc := After(config, events);
    assert Outdated(svc, key) by { NotCurrentIsOutdated(svc, key); }
    OutdatedForever(config, events, later, key);
    var late := After(config, events + later);
    assert !IsCurrent(late, key) by { OutdatedIsNotCurrent(late, key); }
    hide Postpone, Rest, Accept;
  }

  lemma NotCurrentIsOutdated(svc: Service, key: Key)
    requires ServiceOk(svc) && key in svc.refreshes && !IsCurrent(svc, key)
    ensures Outdated(svc, key)
  {
    hide Counted, RetryDelay;
    assert key.symbol in svc.states ==> Plain(svc, svc.states[key.symbol]);
  }

  lemma OutdatedIsNotCurrent(svc: Service, key: Key)
    requires Outdated(svc, key)
    ensures !IsCurrent(svc, key)
  {
  }

  // ---------------------------------------------------------------------------
  // Leaving
  // ---------------------------------------------------------------------------

  lemma PairsWithout(states: map<string, SymbolState>, symbol: string)
    ensures forall p :: p in Pairs(states - {symbol}) <==> p in Pairs(states) && p.0 != symbol
  {
  }

  lemma PairsWith(states: map<string, SymbolState>, symbol: string, state: SymbolState)
    ensures forall p :: p in Pairs(states[symbol := state]) <==>
              if p.0 == symbol then p.1 in state.subscribers else p in Pairs(states)
  {
  }

  lemma SamePairs(a: map<string, SymbolState>, b: map<string, SymbolState>)
    requires a.Keys == b.Keys && forall s :: s in a ==> a[s].subscribers == b[s].subscribers
    ensures Pairs(a) == Pairs(b)
  {
  }

  /** Unsubscribing takes away that one subscription and no other. */
  lemma UnsubscribeTakesOne(svc: Service, client: Client, symbol: string)
    ensures Pairs(Unsubscribe(svc, client, symbol).states) == Pairs(svc.states) - {(symbol, client)}
  {
    if symbol in svc.states {
      var alone := svc.states[symbol].(subscribers := svc.states[symbol].subscribers - {client});
      PairsOfSymbol(svc.states, symbol);
      hide Pairs;
      PairsWith(svc.states, symbol, alone);
      if |alone.subscribers| == 0 {
        PairsWithout(svc.states[symbol := alone], symbol);
        assert |alone.subscribers.Keys| == 0;
        assert forall c :: c !in alone.subscribers.Keys;
      }
    } else {
      PairsOfSymbol(svc.states, symbol);
    }
  }

  lemma PairsOfSymbol(states: map<string, SymbolState>, symbol: string)
    ensures forall c :: (symbol, c) in Pairs(states) <==> symbol in states && c in states[symbol].subscribers
  {
  }

  lemma {:induction false} LeaveAllTakes(svc: Service, client: Client, symbols: seq<string>)
    ensures Pairs(LeaveAll(svc, client, symbols).states) ==
            set p | p in Pairs(svc.states) && !(p.0 in symbols && p.1 == client)
    decreases symbols
  {
    hide Unsubscribe, Pairs;
    if symbols != [] {
      var next := Unsubscribe(svc, client, symbols[0]);
      UnsubscribeTakesOne(svc, client, symbols[0]);
      LeaveAllTakes(next, client, symbols[1..]);
      assert forall s :: s in symbols <==> s == symbols[0] || s in symbols[1..];
    }
  }

  /** A disconnected client is subscribed to nothing, and everyone else is exactly where they were. */
  lemma DisconnectTakesOneClient(config: Config, events: seq<Event>, client: Client)
    ensures Pairs(Disconnect(After(config, events), client).states) ==
            set p | p in Pairs(After(config, events).states) && p.1 != client
  {
    EveryServiceIsOk(config, events);
    var svc := After(config, events);
    hide After;
    LeaveAllTakes(svc, client, svc.order);
    assert forall p :: p in Pairs(svc.states) ==> p.0 in svc.order;
  }

  /** Shutting down leaves no symbol, no subscription, no timer, and every suspended refresh silent. */
  lemma ShutdownLeavesNothing(config: Config, events: seq<Event>)
    ensures var svc := Destroy(After(config, events));
            svc.states == map[] && svc.subscriberGauge == 0 && svc.activeSymbolGauge == 0 && !svc.sessionTimer
            && forall key :: key in svc.refreshes ==> !IsCurrent(svc, key)
  {
    EveryServiceIsOk(config, events);
    var before := After(config, events);
    hide After, TeardownAll;
    TeardownAllKeeps(before, before.order);
    var svc := Destroy(before);
    assert svc.states == map[] by { assert forall s :: s !in svc.states; }
    assert Pairs(svc.states) == {};
  }

  /** A subscription that is accepted is there, unless the provider is finally unavailable and the symbol goes at once. */
  lemma SubscribeAddsOne(svc: Service, client: Client, symbol: string, requested: int, session: string, preflight: Preflight, open: bool)
    requires ServiceOk(svc)
    ensures var after := Subscribe(svc, client, symbol, requested, session, preflight, open);
            || (symbol !in svc.states && |svc.states| == svc.config.maxSymbols && Pairs(after.states) == Pairs(svc.states))
            || (symbol !in svc.states && preflight == Unavailable(false) && Pairs(after.states) == Pairs(svc.states))
            || Pairs(after.states) == Pairs(svc.states) + {(symbol, client)}
  {
    hide BodyOk, OkBut, Pairs, BeginRefresh, ClampLevels;
    CapacityKept(svc);
    if symbol in svc.states {
      DrivenState(svc, symbol);
      JoinKnown(svc, client, symbol, requested);
    } else if |svc.states| < svc.config.maxSymbols {
      JoinNew(svc, client, symbol, requested, session);
      BegunPairs(Joined(Created(svc, symbol, session), symbol, client, requested), symbol, preflight, open);
    }
  }

  lemma CapacityKept(svc: Service)
    requires ServiceOk(svc)
    ensures |svc.states| <= svc.config.maxSymbols
  {
  }

  lemma JoinKnown(svc: Service, client: Client, symbol: string, requested: int)
    requires symbol in svc.states
    ensures Pairs(Joined(svc, symbol, client, requested).states) == Pairs(svc.states) + {(symbol, client)}
  {
    hide Pairs, ClampLevels;
    PairsOfSymbol(svc.states, symbol);
    PairsWith(svc.states, symbol, Joined(svc, symbol, client, requested).states[symbol]);
  }

  lemma JoinNew(svc: Service, client: Client, symbol: string, requested: int, session: string)
    requires symbol !in svc.states
    ensures var joined := Joined(Created(svc, symbol, session), symbol, client, requested);
            Pairs(joined.states) == Pairs(svc.states) + {(symbol, client)} && joined.states - {symbol} == svc.states
  {
    hide Pairs, ClampLevels;
    var joined := Joined(Created(svc, symbol, session), symbol, client, requested);
    assert joined.states == svc.states[symbol := joined.states[symbol]];
    PairsOfSymbol(svc.states, symbol);
    PairsWith(svc.states, symbol, joined.states[symbol]);
  }

  lemma BegunPairs(svc: Service, symbol: string, preflight: Preflight, open: bool)
    requires symbol in svc.states
    ensures var after := BeginRefresh(svc, symbol, preflight, open);
            if preflight == Unavailable(false) then Pairs(after.states) == Pairs(svc.states - {symbol})
            else Pairs(after.states) == Pairs(svc.states)
  {
    hide Pairs;
    var after := BeginRefresh(svc, symbol, preflight, open);
    BegunStates(svc, symbol, preflight, open);
    if preflight != Unavailable(false) { SamePairs(after.states, svc.states); }
  }

  lemma BegunStates(svc: Service, symbol: string, preflight: Preflight, open: bool)
    requires symbol in svc.states
    ensures var after := BeginRefresh(svc, symbol, preflight, open);
            if preflight == Unavailable(false) then after.states == svc.states - {symbol}
            else after.states.Keys == svc.states.Keys && forall s :: s in svc.states ==> after.states[s].subscribers == svc.states[s].subscribers
  {
    hide Postpone, Teardown, Announce;
    var state := svc.states[symbol].(inFlight := true, pollTimer := None);
    var begun := svc.(states := svc.states[symbol := state]);
    match preflight
    case Unavailable(retryable) =>
      if retryable { PostponedStates(begun, symbol, FromProvider(true)); } else { RefusedStates(svc, begun, symbol, state); }
    case Throws => PostponedStates(begun, symbol, LimiterUnavailable);
    case Proceed => PostponedStates(begun, symbol, MarketClosed);
  }

  lemma RefusedStates(svc: Service, begun: Service, symbol: string, state: SymbolState)
    requires symbol in svc.states && begun.states == svc.states[symbol := state]
    ensures symbol in Announce(begun, symbol, state, Status(FromProvider(false))).states
    ensures Teardown(Announce(begun, symbol, state, Status(FromProvider(false))), symbol).states == svc.states - {symbol}
  {
  }

  lemma PostponedStates(svc: Service, symbol: string, reason: Reason)
    requires symbol in svc.states
    ensures var after := Postpone(svc, symbol, reason);
            after.states.Keys == svc.states.Keys && forall s :: s in svc.states ==> after.states[s].subscribers == svc.states[s].subscribers
  {
    hide RetryDelay;
  }

  // ---------------------------------------------------------------------------
  // Back-off
  // ---------------------------------------------------------------------------

  /** Every armed poll fires within the larger of the two configured times. */
  lemma PollDelayIsBounded(config: Config, events: seq<Event>, symbol: string)
    requires symbol in After(config, events).states && After(config, events).states[symbol].pollTimer.Some?
    ensures var delay := After(config, events).states[symbol].pollTimer.value;
            delay <= if config.pollMs > config.maxRetryMs then config.pollMs else config.maxRetryMs
  {
    EveryServiceIsOk(config, events);
    ConfigKept(config, events);
    var svc := After(config, events);
    hide After;
    assert Driven(svc, symbol, svc.states[symbol]);
  }

  /** While below the cap, each further failure doubles the wait; once reached, the cap stays. */
  lemma DelayDoublesUpToCap(config: Config, n: nat)
    requires n > 0
    ensures RetryDelay(config, n) < config.maxRetryMs ==>
              RetryDelay(config, n + 1) == if 2 * RetryDelay(config, n) < config.maxRetryMs then 2 * RetryDelay(config, n) else config.maxRetryMs
    ensures RetryDelay(config, n) == config.maxRetryMs ==> RetryDelay(config, n + 1) == config.maxRetryMs
  {
    var p := PowerOfTwo(n - 1);
    assert PowerOfTwo(n) == 2 * p;
    assert config.pollMs * (2 * p) == 2 * (config.pollMs * p);
  }

  // ---------------------------------------------------------------------------
  // What an answer does
  // ---------------------------------------------------------------------------

  /** A failed refresh is told once, arms a longer poll, keeps the history and leaves nothing suspended. */
  lemma FailureBacksOff(svc: Service, key: Key)
    requires ServiceOk(svc) && key in svc.refreshes && IsCurrent(svc, key)
    ensures var after := Threw(svc, key); var before := svc.states[key.symbol];
            var reason := if svc.refreshes[key].AtLimiter? then LimiterUnavailable else ProviderError;
            && key.symbol in after.states && key !in after.refreshes && |after.refreshes| == |svc.refreshes| - 1
            && var state := after.states[key.symbol];
            && state.retryAttempt == before.retryAttempt + 1 && !state.inFlight
            && state.pollTimer == Some(RetryDelay(svc.config, before.retryAttempt + 1))
            && state.history == before.history && state.subscribers == before.subscribers
            && after.sent == svc.sent + [Publication(key, Status(reason))]
  {
    CurrentIsInFlight(svc, key);
    hide ServiceOk, RetryDelay;
    OneRefreshLess(svc, key);
  }

  lemma OneRefreshLess(svc: Service, key: Key)
    requires key in svc.refreshes
    ensures |svc.refreshes - {key}| == |svc.refreshes| - 1
  {
    assert (svc.refreshes - {key}).Keys == svc.refreshes.Keys - {key};
    assert |(svc.refreshes - {key}).Keys| == |svc.refreshes - {key}| && |svc.refreshes.Keys| == |svc.refreshes|;
  }

  /**
   A snapshot is the last thing published and the last sample kept, resets the back-off, and arms the
   stale timer of this generation; one of a new session is announced and starts the history over.
   */
  lemma SnapshotIsPublished(svc: Service, key: Key, snap: Snap, depth: int)
    requires ServiceOk(svc) && key in svc.refreshes && IsCurrent(svc, key)
    ensures var after := Fetched(svc, key, Snapshot(snap, true), depth); var before := svc.states[key.symbol];
            && key.symbol in after.states && key !in after.refreshes
            && var state := after.states[key.symbol];
            && state.retryAttempt == 0 && state.pollTimer == Some(svc.config.pollMs) && !state.inFlight
            && state.latest == Some(SnapshotMessage(snap, depth)) && state.lastObservationAt == Some(snap.observedAt)
            && state.staleTimer == Some(state.generation) && !state.staleSent && state.session == snap.session
            && state.history == LastOf((if before.session == snap.session then before.history else []) + [snap], svc.config.maxHistory)
            && after.sent == svc.sent + (if before.session == snap.session then [] else [Publication(key, Status(NoData))])
                             + [Publication(key, SnapshotMessage(snap, depth))]
  {
    CurrentIsInFlight(svc, key);
    hide ServiceOk, LastOf;
  }

  /** Staleness is announced exactly when the last snapshot is too old, and once per snapshot. */
  lemma StaleIsToldOnce(svc: Service, symbol: string, now: int)
    requires ServiceOk(svc) && symbol in svc.states && svc.states[symbol].staleTimer.Some?
    ensures var after := StaleFires(svc, symbol, now); var before := svc.states[symbol];
            && symbol in after.states && after.states[symbol].staleTimer.None?
            && (after.sent == svc.sent + [Publication(KeyOf(symbol, before), Status(Stale))] <==>
                  !before.staleSent && before.lastObservationAt.Some? && now - before.lastObservationAt.value >= svc.config.staleMs)
            && (after.sent != svc.sent ==> after.states[symbol].staleSent)
  {
    assert Plain(svc, svc.states[symbol]);
    hide ServiceOk;
  }
}
