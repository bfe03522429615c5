/** What every callback of the Level 2 service keeps, and what follows for all schedules of callbacks. */
module OrderBookInvariant {
  import opened Wrappers
  import opened OrderBookRules

  // ---------------------------------------------------------------------------
  // The invariant
  // ---------------------------------------------------------------------------

  /** The subscriptions there are. */
  function Pairs(states: map<string, SymbolState>): set<(string, Client)> {
    set s, c | s in states && c in states[s].subscribers :: (s, c)
  }

  predicate NoRepeats(order: seq<string>) {
    forall i, j :: 0 <= i < j < |order| ==> order[i] != order[j]
  }

  /** Someone listens, depths are in range, the history is bounded and of one session, no timer is left over. */
  ghost predicate Plain(svc: Service, state: SymbolState) {
    && state.id < svc.nextId
    && |state.subscribers| > 0
    && (forall c :: c in state.subscribers ==> 1 <= state.subscribers[c] && (state.subscribers[c] <= svc.config.maxLevels || state.subscribers[c] == 1))
    && |state.history| <= svc.config.maxHistory
    && (forall i :: 0 <= i < |state.history| ==> state.history[i].session == state.session)
    && (state.staleTimer.Some? ==> state.staleTimer.value == state.generation)
  }

  /** Exactly one of: a request in flight, which one suspended refresh will end, or the poll timer armed. */
  ghost predicate Driven(svc: Service, symbol: string, state: SymbolState) {
    && (state.inFlight <==> state.pollTimer.None?)
    && (state.inFlight <==> KeyOf(symbol, state) in svc.refreshes)
    && (state.pollTimer.Some? ==> state.pollTimer.value == RetryDelay(svc.config, state.retryAttempt))
  }

  ghost predicate KeysOk(svc: Service) {
    forall key :: key in svc.refreshes ==>
      && key.id < svc.nextId
      && (key.symbol in svc.states && svc.states[key.symbol].id == key.id ==> key.generation <= svc.states[key.symbol].generation)
  }

  ghost predicate Counted(svc: Service) {
    && svc.activeSymbolGauge == |svc.states| <= svc.config.maxSymbols
    && svc.subscriberGauge == |Pairs(svc.states)|
    && NoRepeats(svc.order) && (forall s :: s in svc.order <==> s in svc.states)
  }

  /** Everything except the session timer, with one symbol possibly between a poll and a request. */
  ghost predicate OkBut(svc: Service, symbol: string) {
    && Counted(svc) && KeysOk(svc)
    && (forall s :: s in svc.states ==> Plain(svc, svc.states[s]))
    && (forall s :: s in svc.states && s != symbol ==> Driven(svc, s, svc.states[s]))
  }

  ghost predicate BodyOk(svc: Service) {
    && Counted(svc) && KeysOk(svc)
    && (forall s :: s in svc.states ==> Plain(svc, svc.states[s]) && Driven(svc, s, svc.states[s]))
  }

  ghost predicate ServiceOk(svc: Service) {
    BodyOk(svc) && (svc.sessionTimer <==> |svc.states| > 0)
  }

  // ---------------------------------------------------------------------------
  // Counting subscriptions
  // ---------------------------------------------------------------------------

  function Row(symbol: string, clients: set<Client>): set<(string, Client)> {
    set c | c in clients :: (symbol, c)
  }

  lemma {:induction false} RowSize(symbol: string, clients: set<Client>)
    ensures |Row(symbol, clients)| == |clients|
    decreases clients
  {
    if clients != {} {
      var c :| c in clients;
      assert Row(symbol, clients) == Row(symbol, clients - {c}) + {(symbol, c)};
      RowSize(symbol, clients - {c});
    }
  }

  lemma CountRemoved(states: map<string, SymbolState>, symbol: string)
    requires symbol in states
    ensures |Pairs(states - {symbol})| == |Pairs(states)| - |states[symbol].subscribers|
  {
    var row := Row(symbol, states[symbol].subscribers.Keys);
    assert Pairs(states) == Pairs(states - {symbol}) + row;
    assert Pairs(states - {symbol}) !! row;
    RowSize(symbol, states[symbol].subscribers.Keys);
    assert |states[symbol].subscribers.Keys| == |states[symbol].subscribers|;
  }

  lemma WithoutUpdated(states: map<string, SymbolState>, symbol: string, state: SymbolState)
    ensures states[symbol := state] - {symbol} == states - {symbol}
    ensures symbol !in states ==> states - {symbol} == states
  {
  }

  lemma CountUpdated(states: map<string, SymbolState>, symbol: string, state: SymbolState)
    ensures |Pairs(states[symbol := state])| ==
            |Pairs(states)| - (if symbol in states then |states[symbol].subscribers| else 0) + |state.subscribers|
  {
    hide Pairs;
    WithoutUpdated(states, symbol, state);
    if symbol in states { CountRemoved(states, symbol); }
    CountRemoved(states[symbol := state], symbol);
  }

  lemma CountOneLess(subscribers: map<Client, int>, client: Client)
    ensures |subscribers - {client}| == |subscribers| - if client in subscribers then 1 else 0
  {
    assert (subscribers - {client}).Keys == subscribers.Keys - {client};
    assert |(subscribers - {client}).Keys| == |subscribers - {client}|;
    assert |subscribers.Keys| == |subscribers|;
  }

  lemma SameSubscribers(svc: Service, symbol: string, state: SymbolState)
    requires Counted(svc) && symbol in svc.states && state.subscribers == svc.states[symbol].subscribers
    ensures |Pairs(svc.states[symbol := state])| == |Pairs(svc.states)|
    ensures |svc.states[symbol := state]| == |svc.states|
    ensures forall s :: s in svc.order <==> s in svc.states[symbol := state]
  {
    CountUpdated(svc.states, symbol, state);
  }

  // ---------------------------------------------------------------------------
  // Small steps
  // ---------------------------------------------------------------------------

  /** A symbol's own fields change, not who listens, who it is or its generation. */
  ghost predicate SameIdentity(a: SymbolState, b: SymbolState) {
    a.id == b.id && a.generation == b.generation && a.subscribers == b.subscribers
  }

  lemma PutKeeps(svc: Service, after: Service, symbol: string)
    requires OkBut(svc, symbol) && symbol in svc.states && symbol in after.states
    requires after == svc.(states := svc.states[symbol := after.states[symbol]], sent := after.sent, told := after.told)
    requires SameIdentity(svc.states[symbol], after.states[symbol]) && Plain(svc, after.states[symbol])
    ensures OkBut(after, symbol)
  {
    hide NoRepeats, Plain, Pairs, RetryDelay;
    SameSubscribers(svc, symbol, after.states[symbol]);
    forall s | s in after.states ensures Plain(after, after.states[s]) { PlainAnywhere(svc, after, after.states[s]); }
  }

  /** A symbol is new, or keeps its identity and does not fall back to an older generation. */
  ghost predicate Descends(svc: Service, symbol: string, state: SymbolState) {
    if symbol in svc.states && svc.states[symbol].id == state.id then svc.states[symbol].generation <= state.generation
    else svc.nextId <= state.id
  }

  lemma OneSymbolChanged(svc: Service, after: Service, symbol: string)
    requires OkBut(svc, symbol) && symbol in after.states && after.states == svc.states[symbol := after.states[symbol]]
    requires after.refreshes == svc.refreshes && after.config == svc.config && svc.nextId <= after.nextId
    requires Counted(after) && Plain(after, after.states[symbol]) && Descends(svc, symbol, after.states[symbol])
    ensures OkBut(after, symbol)
  {
    hide Counted, RetryDelay;
    forall s | s in after.states ensures Plain(after, after.states[s]) {
      if s != symbol { PlainAnywhere(svc, after, svc.states[s]); }
    }
    forall s | s in after.states && s != symbol ensures Driven(after, s, after.states[s]) {
      assert Driven(svc, s, svc.states[s]);
    }
  }

  lemma DrivenIsOk(svc: Service, symbol: string)
    requires OkBut(svc, symbol) && symbol in svc.states && Driven(svc, symbol, svc.states[symbol])
    ensures BodyOk(svc)
  {
    hide Counted, KeysOk, Plain;
    forall s | s in svc.states ensures Plain(svc, svc.states[s]) && Driven(svc, s, svc.states[s]) { }
  }

  lemma PlainAnywhere(svc: Service, after: Service, state: SymbolState)
    requires Plain(svc, state) && after.config == svc.config && svc.nextId <= after.nextId
    ensures Plain(after, state)
  {
  }

  lemma RestKeeps(svc: Service, symbol: string)
    requires OkBut(svc, symbol) && symbol in svc.states
    requires svc.states[symbol].pollTimer.Some? ==> svc.states[symbol].pollTimer.value == RetryDelay(svc.config, svc.states[symbol].retryAttempt)
    ensures BodyOk(Rest(svc, symbol)) && Rest(svc, symbol).states.Keys == svc.states.Keys
  {
    hide RetryDelay, Counted, Plain, Driven;
    var after := Rest(svc, symbol);
    assert Counted(after) by { RestCounts(svc, symbol); }
    forall s | s in after.states ensures Plain(after, after.states[s]) && Driven(after, s, after.states[s]) {
      assert Plain(svc, svc.states[s]);
      RestPlain(svc, symbol, s);
      RestDriven(svc, symbol, s);
    }
  }

  lemma RestDriven(svc: Service, symbol: string, s: string)
    requires symbol in svc.states && s in svc.states && (s != symbol ==> Driven(svc, s, svc.states[s]))
    requires svc.states[symbol].pollTimer.Some? ==> svc.states[symbol].pollTimer.value == RetryDelay(svc.config, svc.states[symbol].retryAttempt)
    ensures Driven(Rest(svc, symbol), s, Rest(svc, symbol).states[s])
  {
    hide RetryDelay;
  }

  lemma RestPlain(svc: Service, symbol: string, s: string)
    requires symbol in svc.states && s in svc.states && Plain(svc, svc.states[s])
    ensures Plain(Rest(svc, symbol), Rest(svc, symbol).states[s])
  {
  }

  lemma RestCounts(svc: Service, symbol: string)
    requires Counted(svc) && symbol in svc.states
    ensures Counted(Rest(svc, symbol))
  {
    SameSubscribers(svc, symbol, Rest(svc, symbol).states[symbol]);
  }

  lemma PostponeKeeps(svc: Service, symbol: string, reason: Reason)
    requires OkBut(svc, symbol) && symbol in svc.states && svc.states[symbol].pollTimer.None?
    ensures BodyOk(Postpone(svc, symbol, reason)) && Postpone(svc, symbol, reason).states.Keys == svc.states.Keys
  {
    hide OkBut, BodyOk, Plain, RetryDelay;
    var state := svc.states[symbol];
    var told := Announce(svc, symbol, state.(retryAttempt := state.retryAttempt + 1), Status(reason));
    PlainState(svc, symbol);
    assert Plain(svc, told.states[symbol]) by { SamePlain(svc, state, told.states[symbol]); }
    PutKeeps(svc, told, symbol);
    RestKeeps(told, symbol);
  }

  lemma PlainState(svc: Service, symbol: string)
    requires OkBut(svc, symbol) && symbol in svc.states
    ensures Plain(svc, svc.states[symbol])
  {
  }

  lemma SamePlain(svc: Service, a: SymbolState, b: SymbolState)
    requires Plain(svc, a) && SameIdentity(a, b) && b.history == a.history && b.session == a.session
    requires b.staleTimer == a.staleTimer || b.staleTimer.None?
    ensures Plain(svc, b)
  {
  }

  lemma {:induction false} DroppedOrder(order: seq<string>, symbol: string)
    requires NoRepeats(order) && symbol in order
    ensures NoRepeats(Dropped(order, symbol))
    ensures forall s :: s in Dropped(order, symbol) <==> s in order && s != symbol
  {
    if order[0] != symbol {
      var rest := order[1..];
      assert forall s :: s in rest <==> s in order && s != order[0];
      DroppedOrder(rest, symbol);
      var dropped := Dropped(rest, symbol);
      assert order[0] !in dropped;
      forall i, j | 0 <= i < j < |dropped| + 1 ensures ([order[0]] + dropped)[i] != ([order[0]] + dropped)[j] {
        assert dropped[j - 1] in dropped;
      }
    } else {
      assert forall s :: s in order[1..] <==> s in order && s != symbol;
    }
  }

  lemma TeardownKeeps(svc: Service, symbol: string)
    requires OkBut(svc, symbol) && symbol in svc.states
    ensures BodyOk(Teardown(svc, symbol)) && Teardown(svc, symbol).states.Keys == svc.states.Keys - {symbol}
  {
    hide NoRepeats, Plain, Pairs, RetryDelay, Counted;
    var after := Teardown(svc, symbol);
    assert Counted(after) by {
      TeardownCounts(svc, symbol);
    }
    forall s | s in after.states ensures Plain(after, after.states[s]) && Driven(after, s, after.states[s]) {
      assert Plain(svc, svc.states[s]) && Driven(svc, s, svc.states[s]);
      PlainAnywhere(svc, after, svc.states[s]);
    }
  }

  lemma TeardownCounts(svc: Service, symbol: string)
    requires Counted(svc) && symbol in svc.states
    ensures Counted(Teardown(svc, symbol))
  {
    hide Pairs;
    CountRemoved(svc.states, symbol);
    DroppedOrder(svc.order, symbol);
    var left := svc.states - {symbol};
    assert left.Keys == svc.states.Keys - {symbol};
    assert |left.Keys| == |left| && |svc.states.Keys| == |svc.states|;
  }

  /** Nothing is started twice: a refresh begins only when its key is not already suspended. */
  lemma BeginKeeps(svc: Service, symbol: string, preflight: Preflight, open: bool)
    requires OkBut(svc, symbol) && symbol in svc.states && KeyOf(symbol, svc.states[symbol]) !in svc.refreshes
    ensures BodyOk(BeginRefresh(svc, symbol, preflight, open))
  {
    hide OkBut, BodyOk, Plain, RetryDelay, SameIdentity;
    var state := svc.states[symbol].(inFlight := true, pollTimer := None);
    var begun := svc.(states := svc.states[symbol := state]);
    PlainState(svc, symbol);
    assert SameIdentity(svc.states[symbol], state) by { IdentityKept(svc.states[symbol], state); }
    SamePlain(svc, svc.states[symbol], state);
    PutKeeps(svc, begun, symbol);
    match preflight
    case Unavailable(retryable) =>
      if retryable {
        PostponeKeeps(begun, symbol, FromProvider(true));
      } else {
        IdentityKept(state, state);
        PlainAnywhere(svc, begun, state);
        AnnounceKeeps(begun, symbol, state, Status(FromProvider(false)));
        TeardownKeeps(Announce(begun, symbol, state, Status(FromProvider(false))), symbol);
      }
    case Throws => PostponeKeeps(begun, symbol, LimiterUnavailable);
    case Proceed =>
      if !open { PostponeKeeps(begun, symbol, MarketClosed); } else { SuspendKeeps(begun, symbol); }
  }

  lemma IdentityKept(a: SymbolState, b: SymbolState)
    requires a.id == b.id && a.generation == b.generation && a.subscribers == b.subscribers
    ensures SameIdentity(a, b)
  {
  }

  lemma AnnounceKeeps(svc: Service, symbol: string, state: SymbolState, message: Message)
    requires OkBut(svc, symbol) && symbol in svc.states && SameIdentity(svc.states[symbol], state) && Plain(svc, state)
    ensures OkBut(Announce(svc, symbol, state, message), symbol)
  {
    hide OkBut, Plain;
    var after := Announce(svc, symbol, state, message);
    assert Plain(svc, after.states[symbol]) by { SamePlain(svc, state, after.states[symbol]); }
    PutKeeps(svc, after, symbol);
  }

  lemma SuspendKeeps(svc: Service, symbol: string)
    requires OkBut(svc, symbol) && symbol in svc.states
    requires svc.states[symbol].inFlight && svc.states[symbol].pollTimer.None?
    ensures BodyOk(svc.(refreshes := svc.refreshes[KeyOf(symbol, svc.states[symbol]) := AtLimiter]))
  {
    hide NoRepeats, Pairs, RetryDelay, Plain;
    var after := svc.(refreshes := svc.refreshes[KeyOf(symbol, svc.states[symbol]) := AtLimiter]);
    forall s | s in after.states ensures Plain(after, after.states[s]) && Driven(after, s, after.states[s]) {
      assert Plain(svc, svc.states[s]);
      PlainAnywhere(svc, after, svc.states[s]);
      assert s != symbol ==> Driven(svc, s, svc.states[s]);
    }
    assert Plain(svc, svc.states[symbol]);
    assert svc.states[symbol].id < svc.nextId by { PlainId(svc, svc.states[symbol]); }
  }

  lemma PlainId(svc: Service, state: SymbolState)
    requires Plain(svc, state)
    ensures state.id < svc.nextId && |state.subscribers| > 0
  {
  }

  /** The session timer after a refresh begins: it goes only with the last symbol. */
  lemma BeginTimer(svc: Service, symbol: string, preflight: Preflight, open: bool)
    requires symbol in svc.states
    ensures var after := BeginRefresh(svc, symbol, preflight, open);
            && (after.sessionTimer <==> svc.sessionTimer && |after.states| > 0)
            && |after.states| <= |svc.states|
  {
    hide Postpone, RetryDelay;
    var begun := svc.(states := svc.states[symbol := svc.states[symbol].(inFlight := true, pollTimer := None)]);
    var after := BeginRefresh(svc, symbol, preflight, open);
    PostponeTimer(begun, symbol, FromProvider(true));
    PostponeTimer(begun, symbol, LimiterUnavailable);
    PostponeTimer(begun, symbol, MarketClosed);
    assert symbol in svc.states.Keys && |svc.states.Keys| == |svc.states| && |after.states.Keys| == |after.states|;
    assert begun.states.Keys == svc.states.Keys;
    assert preflight == Unavailable(false) ==> after.states.Keys == svc.states.Keys - {symbol};
  }

  lemma PostponeTimer(svc: Service, symbol: string, reason: Reason)
    requires symbol in svc.states
    ensures var after := Postpone(svc, symbol, reason);
            after.states.Keys == svc.states.Keys && after.sessionTimer == svc.sessionTimer
  {
    hide RetryDelay;
  }

  // ---------------------------------------------------------------------------
  // Clients
  // ---------------------------------------------------------------------------

  lemma ClampedInRange(config: Config, requested: int)
    ensures 1 <= ClampLevels(config, requested)
    ensures ClampLevels(config, requested) <= config.maxLevels || ClampLevels(config, requested) == 1
  {
  }

  lemma CreatedAndJoined(svc: Service, client: Client, symbol: string, requested: int, session: string)
    requires BodyOk(svc) && symbol !in svc.states && |svc.states| < svc.config.maxSymbols
    ensures var joined := Joined(Created(svc, symbol, session), symbol, client, requested);
            OkBut(joined, symbol) && KeyOf(symbol, joined.states[symbol]) !in joined.refreshes
  {
    hide RetryDelay, ClampLevels, Counted, Plain, Driven;
    var joined := Joined(Created(svc, symbol, session), symbol, client, requested);
    CreatedCounts(svc, client, symbol, requested, session);
    assert Plain(joined, joined.states[symbol]) by { FirstSubscriber(svc, client, requested, session); }
    OneSymbolChanged(svc, joined, symbol);
  }

  lemma CreatedCounts(svc: Service, client: Client, symbol: string, requested: int, session: string)
    requires Counted(svc) && symbol !in svc.states && |svc.states| < svc.config.maxSymbols
    ensures var joined := Joined(Created(svc, symbol, session), symbol, client, requested);
            Counted(joined) && joined.states == svc.states[symbol := joined.states[symbol]]
  {
    hide Pairs, ClampLevels;
    var joined := Joined(Created(svc, symbol, session), symbol, client, requested);
    assert joined.states == svc.states[symbol := joined.states[symbol]];
    CountUpdated(svc.states, symbol, joined.states[symbol]);
    assert joined.states[symbol].subscribers == map[client := ClampLevels(svc.config, requested)];
  }

  lemma FirstSubscriber(svc: Service, client: Client, requested: int, session: string)
    ensures var state := NewState(svc, session).(subscribers := map[client := ClampLevels(svc.config, requested)]);
            forall after: Service :: after.config == svc.config && after.nextId == svc.nextId + 1 ==> Plain(after, state)
  {
    ClampedInRange(svc.config, requested);
    var subscribers := map[client := ClampLevels(svc.config, requested)];
    assert client in subscribers;
    assert |subscribers| > 0;
  }

  lemma JoinedKeeps(svc: Service, client: Client, symbol: string, requested: int)
    requires BodyOk(svc) && symbol in svc.states
    ensures BodyOk(Joined(svc, symbol, client, requested))
  {
    hide RetryDelay, ClampLevels, Counted, Plain, KeysOk;
    var joined := Joined(svc, symbol, client, requested);
    assert Counted(joined) by { JoinedCounts(svc, client, symbol, requested); }
    assert Plain(joined, joined.states[symbol]) by { JoinedPlain(svc, client, symbol, requested); }
    assert Driven(svc, symbol, svc.states[symbol]);
    OneSymbolChanged(svc, joined, symbol);
    DrivenIsOk(joined, symbol);
  }

  lemma JoinedCounts(svc: Service, client: Client, symbol: string, requested: int)
    requires Counted(svc) && symbol in svc.states
    ensures Counted(Joined(svc, symbol, client, requested))
  {
    hide Pairs, ClampLevels;
    CountUpdated(svc.states, symbol, Joined(svc, symbol, client, requested).states[symbol]);
  }

  lemma JoinedPlain(svc: Service, client: Client, symbol: string, requested: int)
    requires symbol in svc.states && Plain(svc, svc.states[symbol])
    ensures var joined := Joined(svc, symbol, client, requested); Plain(joined, joined.states[symbol])
  {
    hide ClampLevels;
    ClampedInRange(svc.config, requested);
  }

  lemma SubscribeKeeps(svc: Service, client: Client, symbol: string, requested: int, session: string, preflight: Preflight, open: bool)
    requires ServiceOk(svc)
    ensures ServiceOk(Subscribe(svc, client, symbol, requested, session, preflight, open))
  {
    hide Plain, OkBut, Driven, Pairs, NoRepeats, RetryDelay, KeysOk, BeginRefresh;
    if symbol in svc.states {
      JoinedKeeps(svc, client, symbol, requested);
      var joined := Joined(svc, symbol, client, requested);
      DrivenState(joined, symbol);
    } else if |svc.states| < svc.config.maxSymbols {
      CreatedAndJoined(svc, client, symbol, requested, session);
      var joined := Joined(Created(svc, symbol, session), symbol, client, requested);
      BeginKeeps(joined, symbol, preflight, open);
      BeginTimer(joined, symbol, preflight, open);
    } else {
      var after := svc.(told := svc.told + [(client, Status(NoData))]);
      ToldOnly(svc, after);
    }
  }

  lemma ToldOnly(svc: Service, after: Service)
    requires ServiceOk(svc) && after == svc.(told := after.told)
    ensures ServiceOk(after)
  {
    forall s | s in after.states ensures Plain(after, after.states[s]) && Driven(after, s, after.states[s]) {
      assert Plain(svc, svc.states[s]) && Driven(svc, s, svc.states[s]);
    }
  }

  lemma DrivenState(svc: Service, symbol: string)
    requires BodyOk(svc) && symbol in svc.states
    ensures svc.states[symbol].inFlight <==> svc.states[symbol].pollTimer.None?
    ensures svc.states[symbol].inFlight <==> KeyOf(symbol, svc.states[symbol]) in svc.refreshes
    ensures svc.states[symbol].pollTimer.Some? ==>
              svc.states[symbol].pollTimer.value == RetryDelay(svc.config, svc.states[symbol].retryAttempt)
    ensures OkBut(svc, symbol)
  {
    assert Driven(svc, symbol, svc.states[symbol]);
  }

  lemma UnsubscribeKeeps(svc: Service, client: Client, symbol: string)
    requires ServiceOk(svc)
    ensures ServiceOk(Unsubscribe(svc, client, symbol))
  {
    hide RetryDelay, Counted, KeysOk, Plain, Driven;
    if symbol in svc.states {
      var state := svc.states[symbol];
      var alone := state.(subscribers := state.subscribers - {client});
      var left := svc.(states := svc.states[symbol := alone],
                       subscriberGauge := svc.subscriberGauge - if client in state.subscribers then 1 else 0);
      LeftCounts(svc, left, client, symbol);
      if |alone.subscribers| == 0 {
        LastOneLeaves(svc, left, symbol);
      } else {
        assert Plain(left, alone) by { FewerPlain(svc, left, state, client); }
        OneSymbolChanged(svc, left, symbol);
        assert Driven(left, symbol, alone) by { assert Driven(svc, symbol, state); SameDriven(svc, left, symbol, state, alone); }
        DrivenIsOk(left, symbol);
      }
    }
  }

  lemma LeftCounts(svc: Service, left: Service, client: Client, symbol: string)
    requires Counted(svc) && symbol in svc.states
    requires var state := svc.states[symbol];
             left == svc.(states := svc.states[symbol := state.(subscribers := state.subscribers - {client})],
                          subscriberGauge := svc.subscriberGauge - if client in state.subscribers then 1 else 0)
    ensures Counted(left) && |left.states| == |svc.states|
  {
    hide Pairs;
    CountOneLess(svc.states[symbol].subscribers, client);
    CountUpdated(svc.states, symbol, left.states[symbol]);
  }

  lemma FewerPlain(svc: Service, left: Service, state: SymbolState, client: Client)
    requires Plain(svc, state) && left.config == svc.config && left.nextId == svc.nextId
    requires |state.subscribers - {client}| > 0
    ensures Plain(left, state.(subscribers := state.subscribers - {client}))
  {
  }

  lemma SameDriven(svc: Service, after: Service, symbol: string, a: SymbolState, b: SymbolState)
    requires Driven(svc, symbol, a) && after.config == svc.config && after.refreshes == svc.refreshes
    requires b.id == a.id && b.generation == a.generation && b.inFlight == a.inFlight && b.pollTimer == a.pollTimer
    requires b.retryAttempt == a.retryAttempt
    ensures Driven(after, symbol, b)
  {
  }

  lemma LastOneLeaves(svc: Service, left: Service, symbol: string)
    requires ServiceOk(svc) && symbol in svc.states && symbol in left.states && |left.states[symbol].subscribers| == 0
    requires left == svc.(states := svc.states[symbol := left.states[symbol]], subscriberGauge := left.subscriberGauge)
    requires Counted(left) && SameButSubscribers(svc.states[symbol], left.states[symbol])
    ensures ServiceOk(Teardown(left, symbol))
  {
    hide RetryDelay, Counted, Plain, Driven;
    var after := Teardown(left, symbol);
    assert Counted(after) by { TeardownCounts(left, symbol); }
    assert after.states == svc.states - {symbol};
    forall s | s in after.states ensures Plain(after, after.states[s]) && Driven(after, s, after.states[s]) {
      assert Plain(svc, svc.states[s]) && Driven(svc, s, svc.states[s]);
      PlainAnywhere(svc, after, svc.states[s]);
      SameDriven(svc, after, s, svc.states[s], svc.states[s]);
    }
    assert |svc.states| > 0 by { assert symbol in svc.states.Keys; assert |svc.states.Keys| == |svc.states|; }
  }

  ghost predicate SameButSubscribers(a: SymbolState, b: SymbolState) {
    b == a.(subscribers := b.subscribers)
  }

  lemma {:induction false} LeaveAllKeeps(svc: Service, client: Client, symbols: seq<string>)
    requires ServiceOk(svc)
    ensures ServiceOk(LeaveAll(svc, client, symbols))
    decreases symbols
  {
    hide ServiceOk, Unsubscribe;
    if symbols != [] {
      UnsubscribeKeeps(svc, client, symbols[0]);
      LeaveAllKeeps(Unsubscribe(svc, client, symbols[0]), client, symbols[1..]);
    }
  }

  lemma OkIsOkBut(svc: Service, symbol: string)
    requires BodyOk(svc)
    ensures OkBut(svc, symbol)
  {
  }

  lemma TeardownStaysOk(svc: Service, symbol: string)
    requires ServiceOk(svc) && symbol in svc.states
    ensures ServiceOk(Teardown(svc, symbol)) && Teardown(svc, symbol).states.Keys == svc.states.Keys - {symbol}
  {
    hide BodyOk, OkBut;
    OkIsOkBut(svc, symbol);
    TeardownKeeps(svc, symbol);
    assert symbol in svc.states.Keys && |svc.states.Keys| == |svc.states|;
  }

  lemma {:induction false} TeardownAllKeeps(svc: Service, symbols: seq<string>)
    requires ServiceOk(svc)
    ensures ServiceOk(TeardownAll(svc, symbols))
    ensures forall s :: s in TeardownAll(svc, symbols).states <==> s in svc.states && s !in symbols
    decreases symbols
  {
    hide ServiceOk, Teardown;
    if symbols != [] {
      if symbols[0] in svc.states { TeardownStaysOk(svc, symbols[0]); }
      var next := if symbols[0] in svc.states then Teardown(svc, symbols[0]) else svc;
      TeardownAllKeeps(next, symbols[1..]);
    }
  }

  // ---------------------------------------------------------------------------
  // Timers and answers
  // ---------------------------------------------------------------------------

  lemma PollKeeps(svc: Service, symbol: string, preflight: Preflight, open: bool)
    requires ServiceOk(svc) && symbol in svc.states && svc.states[symbol].pollTimer.Some?
    ensures ServiceOk(PollFires(svc, symbol, preflight, open))
  {
    hide BodyOk, OkBut, BeginRefresh;
    DrivenState(svc, symbol);
    BeginKeeps(svc, symbol, preflight, open);
    BeginTimer(svc, symbol, preflight, open);
    assert symbol in svc.states.Keys && |svc.states.Keys| == |svc.states|;
  }

  lemma SameCount(svc: Service, after: Service)
    requires Counted(svc) && after == svc.(refreshes := after.refreshes)
    ensures Counted(after)
  {
  }

  /** An answer to a refresh of an older generation, or of a symbol torn down since, is dropped. */
  lemma StaleKeyDropped(svc: Service, key: Key)
    requires ServiceOk(svc) && key in svc.refreshes && !IsCurrent(svc, key)
    ensures ServiceOk(svc.(refreshes := svc.refreshes - {key}))
  {
    hide RetryDelay, Counted;
    var after := svc.(refreshes := svc.refreshes - {key});
    assert Counted(after) by { SameCount(svc, after); }
    forall s | s in after.states ensures Plain(after, after.states[s]) && Driven(after, s, after.states[s]) {
      assert Plain(svc, svc.states[s]) && Driven(svc, s, svc.states[s]);
    }
  }

  /** The refresh an answer belongs to is the symbol's request in flight. */
  lemma CurrentIsInFlight(svc: Service, key: Key)
    requires ServiceOk(svc) && key in svc.refreshes && IsCurrent(svc, key)
    ensures var state := svc.states[key.symbol];
            state.inFlight && state.pollTimer.None? && KeyOf(key.symbol, state) == key && OkBut(svc, key.symbol)
  {
    hide BodyOk, OkBut;
    DrivenState(svc, key.symbol);
  }

  lemma PostponeStaysOk(svc: Service, key: Key, reason: Reason)
    requires ServiceOk(svc) && key in svc.refreshes && IsCurrent(svc, key)
    ensures ServiceOk(Postpone(svc, key.symbol, reason))
  {
    hide BodyOk, OkBut;
    CurrentIsInFlight(svc, key);
    PostponeKeeps(svc, key.symbol, reason);
    var after := Postpone(svc, key.symbol, reason);
    assert |after.states.Keys| == |after.states| && |svc.states.Keys| == |svc.states|;
  }

  lemma AdvancedKey(svc: Service, key: Key, depth: int)
    requires ServiceOk(svc) && key in svc.refreshes
    ensures ServiceOk(svc.(refreshes := svc.refreshes[key := AtProvider(depth)]))
  {
    hide RetryDelay, NoRepeats, Pairs;
    var after := svc.(refreshes := svc.refreshes[key := AtProvider(depth)]);
    forall s | s in after.states ensures Plain(after, after.states[s]) && Driven(after, s, after.states[s]) {
      assert Plain(svc, svc.states[s]) && Driven(svc, s, svc.states[s]);
    }
  }

  lemma AcceptKeeps(svc: Service, symbol: string, snap: Snap, depth: int)
    requires OkBut(svc, symbol) && symbol in svc.states && svc.states[symbol].pollTimer.None?
    ensures OkBut(Accept(svc, symbol, snap, depth), symbol)
    ensures var after := Accept(svc, symbol, snap, depth);
            after.states.Keys == svc.states.Keys && after.states[symbol].pollTimer.None?
            && SameIdentity(svc.states[symbol], after.states[symbol])
  {
    hide OkBut, Counted, KeysOk, Driven;
    PlainState(svc, symbol);
    var before := svc.states[symbol];
    var renewed :=
      if before.session == snap.session then svc
      else Announce(svc, symbol, before.(history := [], lastObservationAt := None, staleSent := false, session := snap.session), Status(NoData));
    if before.session != snap.session { PutKeeps(svc, renewed, symbol); }
    var after := Accept(svc, symbol, snap, depth);
    var history := renewed.states[symbol].history + [snap];
    assert Plain(renewed, after.states[symbol]) by {
      assert forall i :: 0 <= i < |history| ==> history[i].session == snap.session;
    }
    PutKeeps(renewed, after, symbol);
  }

  lemma FetchedKeeps(svc: Service, key: Key, answer: Answer, depth: int)
    requires ServiceOk(svc) && key in svc.refreshes
    ensures ServiceOk(Fetched(svc, key, answer, depth))
  {
    hide BodyOk, OkBut, Plain, RetryDelay, Accept;
    if !IsCurrent(svc, key) {
      StaleKeyDropped(svc, key);
    } else {
      CurrentIsInFlight(svc, key);
      var state := svc.states[key.symbol];
      if answer.NotAvailable? {
        if answer.retryable { PostponeStaysOk(svc, key, FromProvider(true)); } else { RefusedKeeps(svc, key); }
      } else if !answer.inSession {
        PostponeStaysOk(svc, key, MarketClosed);
      } else {
        var calm := svc.(states := svc.states[key.symbol := state.(retryAttempt := 0)]);
        PlainState(svc, key.symbol);
        SamePlain(svc, state, calm.states[key.symbol]);
        PutKeeps(svc, calm, key.symbol);
        AcceptKeeps(calm, key.symbol, answer.snap, depth);
        var told := Accept(calm, key.symbol, answer.snap, depth);
        RestKeeps(told, key.symbol);
        var after := Rest(told, key.symbol);
        AcceptTimer(calm, key.symbol, answer.snap, depth);
        assert after.states.Keys == svc.states.Keys;
        assert |after.states.Keys| == |after.states| && |svc.states.Keys| == |svc.states|;
      }
    }
  }

  lemma AcceptTimer(svc: Service, symbol: string, snap: Snap, depth: int)
    requires symbol in svc.states
    ensures Accept(svc, symbol, snap, depth).sessionTimer == svc.sessionTimer
  {
  }

  lemma RefusedKeeps(svc: Service, key: Key)
    requires ServiceOk(svc) && key in svc.refreshes && IsCurrent(svc, key)
    ensures ServiceOk(Fetched(svc, key, NotAvailable(false), 0))
  {
    hide BodyOk, OkBut, Plain, RetryDelay;
    CurrentIsInFlight(svc, key);
    PlainState(svc, key.symbol);
    var state := svc.states[key.symbol];
    IdentityKept(state, state);
    AnnounceKeeps(svc, key.symbol, state, Status(FromProvider(false)));
    var told := Announce(svc, key.symbol, state, Status(FromProvider(false)));
    assert told.states.Keys == svc.states.Keys;
    TeardownKeeps(told, key.symbol);
    var torn := Teardown(told, key.symbol);
    assert ServiceOk(torn) by { assert key.symbol in svc.states.Keys && |svc.states.Keys| == |svc.states|; }
    assert !IsCurrent(torn, key);
    StaleKeyDropped(torn, key);
  }

  lemma ThrewKeeps(svc: Service, key: Key)
    requires ServiceOk(svc) && key in svc.refreshes
    ensures ServiceOk(Threw(svc, key))
  {
    hide ServiceOk, Postpone;
    if !IsCurrent(svc, key) {
      StaleKeyDropped(svc, key);
    } else {
      PostponeStaysOk(svc, key, if svc.refreshes[key].AtLimiter? then LimiterUnavailable else ProviderError);
    }
  }

  lemma GrantedKeeps(svc: Service, key: Key, open: bool, depth: int)
    requires ServiceOk(svc) && key in svc.refreshes
    ensures ServiceOk(Granted(svc, key, open, depth))
  {
    hide ServiceOk, Postpone;
    if !IsCurrent(svc, key) {
      StaleKeyDropped(svc, key);
    } else if !open {
      PostponeStaysOk(svc, key, MarketClosed);
    } else {
      AdvancedKey(svc, key, depth);
    }
  }

  lemma StaleFiresKeeps(svc: Service, symbol: string, now: int)
    requires ServiceOk(svc) && symbol in svc.states && svc.states[symbol].staleTimer.Some?
    ensures ServiceOk(StaleFires(svc, symbol, now))
  {
    hide RetryDelay, Counted, Plain, Driven;
    var after := StaleFires(svc, symbol, now);
    var (a, b) := (svc.states[symbol], after.states[symbol]);
    assert after.states == svc.states[symbol := b];
    assert Counted(after) && |after.states| == |svc.states| by { StaleCounts(svc, symbol, now); }
    assert Plain(svc, a) && Driven(svc, symbol, a);
    assert Plain(after, b) by { IdentityKept(a, b); SamePlain(svc, a, b); PlainAnywhere(svc, after, b); }
    OneSymbolChanged(svc, after, symbol);
    SameDriven(svc, after, symbol, a, b);
    DrivenIsOk(after, symbol);
  }

  lemma StaleCounts(svc: Service, symbol: string, now: int)
    requires Counted(svc) && symbol in svc.states && svc.states[symbol].staleTimer.Some?
    ensures Counted(StaleFires(svc, symbol, now)) && |StaleFires(svc, symbol, now).states| == |svc.states|
  {
    hide Pairs;
    var after := StaleFires(svc, symbol, now);
    SameSubscribers(svc, symbol, after.states[symbol]);
    assert after.states == svc.states[symbol := after.states[symbol]];
  }

  // ---------------------------------------------------------------------------
  // New session
  // ---------------------------------------------------------------------------

  /** The old generation's refresh, if any, is stale from here on. */
  lemma RenewedKeeps(svc: Service, symbol: string, session: string)
    requires BodyOk(svc) && symbol in svc.states
    ensures var told := Announce(svc, symbol, Renewed(svc.states[symbol], session), Status(NoData));
            OkBut(told, symbol) && KeyOf(symbol, told.states[symbol]) !in told.refreshes && |told.states[symbol].subscribers| > 0
  {
    hide RetryDelay, Counted, Plain, Driven;
    var told := Announce(svc, symbol, Renewed(svc.states[symbol], session), Status(NoData));
    assert Plain(svc, svc.states[symbol]);
    assert Counted(told) by { RenewedCounts(svc, symbol, session); }
    assert Plain(told, told.states[symbol]) by { RenewedPlain(svc, told, svc.states[symbol], session); }
    PlainId(told, told.states[symbol]);
    OneSymbolChanged(svc, told, symbol);
  }

  lemma RenewedCounts(svc: Service, symbol: string, session: string)
    requires Counted(svc) && symbol in svc.states
    ensures Counted(Announce(svc, symbol, Renewed(svc.states[symbol], session), Status(NoData)))
  {
    hide Pairs;
    SameSubscribers(svc, symbol, Renewed(svc.states[symbol], session).(latest := Some(Status(NoData))));
  }

  lemma RenewedPlain(svc: Service, told: Service, state: SymbolState, session: string)
    requires Plain(svc, state) && told.config == svc.config && told.nextId == svc.nextId
    ensures Plain(told, Renewed(state, session).(latest := Some(Status(NoData))))
  {
  }

  lemma ResetSymbolKeeps(svc: Service, symbol: string, session: string, outlook: Outlook)
    requires BodyOk(svc) && symbol in svc.states && !svc.sessionTimer
    ensures BodyOk(ResetSymbol(svc, symbol, session, outlook)) && !ResetSymbol(svc, symbol, session, outlook).sessionTimer
  {
    hide BodyOk, OkBut, BeginRefresh;
    var told := Announce(svc, symbol, Renewed(svc.states[symbol], session), Status(NoData));
    RenewedKeeps(svc, symbol, session);
    BeginKeeps(told, symbol, outlook.preflight, outlook.open);
    BeginTimer(told, symbol, outlook.preflight, outlook.open);
  }

  lemma {:induction false} ResetAllKeeps(svc: Service, symbols: seq<string>, session: string, outlooks: map<string, Outlook>)
    requires BodyOk(svc) && !svc.sessionTimer
    ensures BodyOk(ResetAll(svc, symbols, session, outlooks))
    decreases symbols
  {
    hide BodyOk, ResetSymbol;
    if symbols != [] {
      var outlook := if symbols[0] in outlooks then outlooks[symbols[0]] else Outlook(Proceed, false);
      if symbols[0] in svc.states { ResetSymbolKeeps(svc, symbols[0], session, outlook); }
      ResetAllKeeps(if symbols[0] in svc.states then ResetSymbol(svc, symbols[0], session, outlook) else svc, symbols[1..], session, outlooks);
    }
  }

  lemma TimerOnly(svc: Service, timer: bool)
    requires BodyOk(svc)
    ensures BodyOk(svc.(sessionTimer := timer))
  {
    hide RetryDelay, NoRepeats, Pairs;
    var after := svc.(sessionTimer := timer);
    forall s | s in after.states ensures Plain(after, after.states[s]) && Driven(after, s, after.states[s]) {
      assert Plain(svc, svc.states[s]) && Driven(svc, s, svc.states[s]);
    }
  }

  lemma BoundaryKeeps(svc: Service, session: string, outlooks: map<string, Outlook>)
    requires ServiceOk(svc) && svc.sessionTimer
    ensures ServiceOk(SessionBoundary(svc, session, outlooks))
  {
    hide BodyOk, ResetAll;
    TimerOnly(svc, false);
    ResetAllKeeps(svc.(sessionTimer := false), svc.order, session, outlooks);
    var after := ResetAll(svc.(sessionTimer := false), svc.order, session, outlooks);
    TimerOnly(after, |after.states| > 0);
  }

  // ---------------------------------------------------------------------------
  // All schedules
  // ---------------------------------------------------------------------------

  lemma StepKeeps(svc: Service, e: Event)
    requires ServiceOk(svc) && Due(svc, e)
    ensures ServiceOk(Apply(svc, e))
  {
    hide ServiceOk, Subscribe, Unsubscribe, LeaveAll, TeardownAll, Granted, Fetched, Threw, StaleFires, SessionBoundary, PollFires;
    match e
    case Subscribes(client, symbol, requested, session, preflight, open) =>
      SubscribeKeeps(svc, client, symbol, requested, session, preflight, open);
    case Unsubscribes(client, symbol) => UnsubscribeKeeps(svc, client, symbol);
    case Disconnects(client) => LeaveAllKeeps(svc, client, svc.order);
    case Shutdown => TeardownAllKeeps(svc, svc.order);
    case Poll(symbol, preflight, open) => PollKeeps(svc, symbol, preflight, open);
    case Grant(key, open, depth) => GrantedKeeps(svc, key, open, depth);
    case Fetch(key, answer, depth) => FetchedKeeps(svc, key, answer, depth);
    case Throw(key) => ThrewKeeps(svc, key);
    case StaleTimer(symbol, now) => StaleFiresKeeps(svc, symbol, now);
    case Boundary(session, outlooks) => BoundaryKeeps(svc, session, outlooks);
  }

  lemma StartIsOk(config: Config)
    ensures ServiceOk(Start(config))
  {
    assert Pairs(Start(config).states) == {};
  }

  lemma {:induction false} EveryServiceIsOk(config: Config, events: seq<Event>)
    ensures ServiceOk(After(config, events))
  {
    hide ServiceOk, Apply, Due;
    if events == [] {
      StartIsOk(config);
    } else {
      var before := After(config, events[..|events| - 1]);
      EveryServiceIsOk(config, events[..|events| - 1]);
      if Due(before, events[|events| - 1]) { StepKeeps(before, events[|events| - 1]); }
    }
  }
}
