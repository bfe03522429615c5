/** What each callback of the Level 2 service leaves behind, said of the whole new state and not of the steps that led there. */
module OrderBookEffects {
  import opened Wrappers
  import opened OrderBookRules
  import opened OrderBookInvariant
  import opened OrderBookTheorems

  // ---------------------------------------------------------------------------
  // Which depth a subscriber gets
  // ---------------------------------------------------------------------------

  /** The request where it lies in range, the configured maximum above it, and one level otherwise. */
  predicate DepthOfRequest(config: Config, requested: int, depth: int) {
    && (1 <= requested <= config.maxLevels ==> depth == requested)
    && (requested > config.maxLevels >= 1 ==> depth == config.maxLevels)
    && (requested < 1 || config.maxLevels < 1 ==> depth == 1)
  }

  /** Subscribing stores the depth of this request for this client, and leaves every other subscriber and symbol alone. */
  lemma SubscriptionDepth(svc: Service, client: Client, symbol: string, requested: int, session: string, preflight: Preflight, open: bool)
    requires ServiceOk(svc)
    requires symbol in svc.states || (|svc.states| < svc.config.maxSymbols && preflight != Unavailable(false))
    ensures var after := Subscribe(svc, client, symbol, requested, session, preflight, open);
            && symbol in after.states && client in after.states[symbol].subscribers
            && DepthOfRequest(svc.config, requested, after.states[symbol].subscribers[client])
            && after.states[symbol].subscribers - {client} ==
                 (if symbol in svc.states then svc.states[symbol].subscribers - {client} else map[])
            && after.states - {symbol} == svc.states - {symbol}
  {
    hide ServiceOk, Subscribe, DepthOfRequest;
    if symbol in svc.states {
      FurtherSubscriptionMeans(svc, client, symbol, requested, session, preflight, open);
      var (before, after) := (svc.states[symbol], Subscribe(svc, client, symbol, requested, session, preflight, open));
      WithoutUpdated(svc.states, symbol, after.states[symbol]);
    } else {
      AdmittedSymbol(svc, client, symbol, requested, session, preflight, open);
    }
  }

  lemma AdmittedSymbol(svc: Service, client: Client, symbol: string, requested: int, session: string, preflight: Preflight, open: bool)
    requires ServiceOk(svc) && symbol !in svc.states && |svc.states| < svc.config.maxSymbols && preflight != Unavailable(false)
    ensures var after := Subscribe(svc, client, symbol, requested, session, preflight, open);
            && symbol in after.states && client in after.states[symbol].subscribers
            && DepthOfRequest(svc.config, requested, after.states[symbol].subscribers[client])
            && after.states[symbol].subscribers - {client} == map[] && after.states - {symbol} == svc.states - {symbol}
  {
    hide ServiceOk, BeginRefresh, ClampLevels, DepthOfRequest;
    ClampedDepth(svc.config, requested);
    var joined := Joined(Created(svc, symbol, session), symbol, client, requested);
    assert joined.states == svc.states[symbol := joined.states[symbol]];
    assert joined.states[symbol].subscribers == map[client := ClampLevels(svc.config, requested)];
    WithoutUpdated(svc.states, symbol, joined.states[symbol]);
    BegunStates(joined, symbol, preflight, open);
    BegunOthers(joined, symbol, preflight, open);
  }

  lemma ClampedDepth(config: Config, requested: int)
    ensures DepthOfRequest(config, requested, ClampLevels(config, requested))
  {
  }

  lemma BegunOthers(svc: Service, symbol: string, preflight: Preflight, open: bool)
    requires symbol in svc.states
    ensures BeginRefresh(svc, symbol, preflight, open).states - {symbol} == svc.states - {symbol}
  {
    hide Postpone, Teardown, Announce;
    var state := svc.states[symbol].(inFlight := true, pollTimer := None);
    var begun := svc.(states := svc.states[symbol := state]);
    WithoutUpdated(svc.states, symbol, state);
    PostponedOthers(begun, symbol, FromProvider(true));
    PostponedOthers(begun, symbol, LimiterUnavailable);
    PostponedOthers(begun, symbol, MarketClosed);
    RefusedStates(svc, begun, symbol, state);
  }

  lemma PostponedOthers(svc: Service, symbol: string, reason: Reason)
    requires symbol in svc.states
    ensures Postpone(svc, symbol, reason).states - {symbol} == svc.states - {symbol}
  {
    hide RetryDelay;
  }

  /** While a subscription lasts, only its own client changes its depth. */
  ghost predicate DepthsKept(svc: Service, after: Service, client: Client, symbol: string) {
    symbol in after.states && client in after.states[symbol].subscribers ==>
      symbol in svc.states && client in svc.states[symbol].subscribers
      && after.states[symbol].subscribers[client] == svc.states[symbol].subscribers[client]
  }

  lemma StepKeepsDepths(svc: Service, e: Event, client: Client, symbol: string)
    requires ServiceOk(svc) && Due(svc, e) && !(e.Subscribes? && e.client == client && e.symbol == symbol)
    ensures DepthsKept(svc, Apply(svc, e), client, symbol)
  {
    hide ServiceOk, Subscribe, LeaveAll, TeardownAll, ResetAll, BeginRefresh, Postpone, Accept, Rest;
    match e
    case Subscribes(c, s, requested, session, preflight, open) => SubscribeKeepsDepth(svc, c, s, requested, session, preflight, open, client, symbol);
    case Unsubscribes(_, _) =>
    case Disconnects(c) => LeaveAllKeepsDepth(svc, c, svc.order, client, symbol);
    case Shutdown => TeardownAllKeepsDepth(svc, svc.order, client, symbol);
    case Poll(s, preflight, open) => BegunStates(svc, s, preflight, open);
    case Grant(key, _, _) => if IsCurrent(svc, key) { PostponedStates(svc, key.symbol, MarketClosed); }
    case Fetch(key, answer, depth) => FetchedKeepsDepth(svc, key, answer, depth, client, symbol);
    case Throw(key) =>
      if IsCurrent(svc, key) { PostponedStates(svc, key.symbol, if svc.refreshes[key].AtLimiter? then LimiterUnavailable else ProviderError); }
    case StaleTimer(_, _) =>
    case Boundary(session, outlooks) => ResetAllKeepsDepth(svc.(sessionTimer := false), svc.order, session, outlooks, client, symbol);
  }

  lemma SubscribeKeepsDepth(svc: Service, c: Client, s: string, requested: int, session: string, preflight: Preflight, open: bool, client: Client, symbol: string)
    requires ServiceOk(svc) && !(c == client && s == symbol)
    ensures DepthsKept(svc, Subscribe(svc, c, s, requested, session, preflight, open), client, symbol)
  {
    hide ServiceOk, Subscribe;
    var after := Subscribe(svc, c, s, requested, session, preflight, open);
    if s in svc.states || (|svc.states| < svc.config.maxSymbols && preflight != Unavailable(false)) {
      SubscriptionDepth(svc, c, s, requested, session, preflight, open);
      if s == symbol {
        assert client in after.states[s].subscribers ==> client in after.states[s].subscribers - {c};
      } else {
        assert symbol in after.states ==> symbol in after.states - {s};
      }
    } else {
      NotAdmitted(svc, c, s, requested, session, preflight, open);
    }
  }

  lemma NotAdmitted(svc: Service, c: Client, s: string, requested: int, session: string, preflight: Preflight, open: bool)
    requires s !in svc.states && (|svc.states| >= svc.config.maxSymbols || preflight == Unavailable(false))
    ensures Subscribe(svc, c, s, requested, session, preflight, open).states == svc.states
  {
    hide BeginRefresh, ClampLevels;
    if |svc.states| < svc.config.maxSymbols {
      var joined := Joined(Created(svc, s, session), s, c, requested);
      BegunStates(joined, s, preflight, open);
      assert joined.states - {s} == svc.states;
    }
  }

  lemma {:induction false} LeaveAllKeepsDepth(svc: Service, c: Client, symbols: seq<string>, client: Client, symbol: string)
    ensures DepthsKept(svc, LeaveAll(svc, c, symbols), client, symbol)
    decreases symbols
  {
    if symbols != [] { LeaveAllKeepsDepth(Unsubscribe(svc, c, symbols[0]), c, symbols[1..], client, symbol); }
  }

  lemma {:induction false} TeardownAllKeepsDepth(svc: Service, symbols: seq<string>, client: Client, symbol: string)
    ensures DepthsKept(svc, TeardownAll(svc, symbols), client, symbol)
    decreases symbols
  {
    if symbols != [] {
      TeardownAllKeepsDepth(if symbols[0] in svc.states then Teardown(svc, symbols[0]) else svc, symbols[1..], client, symbol);
    }
  }

  lemma FetchedKeepsDepth(svc: Service, key: Key, answer: Answer, depth: int, client: Client, symbol: string)
    requires key in svc.refreshes
    ensures DepthsKept(svc, Fetched(svc, key, answer, depth), client, symbol)
  {
    hide RetryDelay, LastOf, Postpone, Accept, Rest;
    if IsCurrent(svc, key) {
      PostponedStates(svc, key.symbol, FromProvider(true));
      PostponedStates(svc, key.symbol, MarketClosed);
      if answer.Snapshot? && answer.inSession { AcceptedKeepsDepth(svc, key.symbol, answer.snap, depth, client, symbol); }
    }
  }

  lemma AcceptedKeepsDepth(svc: Service, s: string, snap: Snap, depth: int, client: Client, symbol: string)
    requires s in svc.states
    ensures var calm := svc.(states := svc.states[s := svc.states[s].(retryAttempt := 0)]);
            s in Accept(calm, s, snap, depth).states && DepthsKept(svc, Rest(Accept(calm, s, snap, depth), s), client, symbol)
  {
    hide RetryDelay, LastOf;
  }

  lemma {:induction false} ResetAllKeepsDepth(svc: Service, symbols: seq<string>, session: string, outlooks: map<string, Outlook>, client: Client, symbol: string)
    ensures DepthsKept(svc, ResetAll(svc, symbols, session, outlooks), client, symbol)
    decreases symbols
  {
    hide ResetSymbol;
    if symbols != [] {
      var outlook := if symbols[0] in outlooks then outlooks[symbols[0]] else Outlook(Proceed, false);
      var next := if symbols[0] in svc.states then ResetSymbol(svc, symbols[0], session, outlook) else svc;
      if symbols[0] in svc.states { ResetKeepsDepth(svc, symbols[0], session, outlook, client, symbol); }
      ResetAllKeepsDepth(next, symbols[1..], session, outlooks, client, symbol);
    }
  }

  lemma ResetKeepsDepth(svc: Service, s: string, session: string, outlook: Outlook, client: Client, symbol: string)
    requires s in svc.states
    ensures DepthsKept(svc, ResetSymbol(svc, s, session, outlook), client, symbol)
  {
    hide BeginRefresh;
    var told := Announce(svc, s, Renewed(svc.states[s], session), Status(NoData));
    BegunStates(told, s, outlook.preflight, outlook.open);
  }

  /**
   In every schedule the depth stored for a subscriber is that of the client's latest request for the
   symbol, whoever else came and went, and whatever was answered or reset in between.
   */
  lemma {:induction false} DepthIsLatestRequest(config: Config, events: seq<Event>, i: nat, symbol: string, client: Client)
    requires i < |events| && events[i].Subscribes? && events[i].client == client && events[i].symbol == symbol
    requires forall j :: i < j < |events| ==> !(events[j].Subscribes? && events[j].client == client && events[j].symbol == symbol)
    ensures var svc := After(config, events);
            symbol in svc.states && client in svc.states[symbol].subscribers ==>
              DepthOfRequest(config, events[i].requested, svc.states[symbol].subscribers[client])
    decreases |events|
  {
    hide ServiceOk, Apply, Due, DepthOfRequest;
    var n := |events| - 1;
    var before := After(config, events[..n]);
    EveryServiceIsOk(config, events[..n]);
    ConfigKept(config, events[..n]);
    if i < n {
      assert events[..n][i] == events[i];
      DepthIsLatestRequest(config, events[..n], i, symbol, client);
      if Due(before, events[n]) { StepKeepsDepths(before, events[n], client, symbol); }
    } else {
      assert Due(before, events[n]) by { SubscribingIsDue(before, events[n]); }
      SubscribedDepth(before, events[n]);
    }
  }

  lemma SubscribingIsDue(svc: Service, e: Event)
    requires e.Subscribes?
    ensures Due(svc, e)
    ensures Apply(svc, e) == Subscribe(svc, e.client, e.symbol, e.requested, e.session, e.preflight, e.open)
  {
  }

  lemma SubscribedDepth(svc: Service, e: Event)
    requires ServiceOk(svc) && e.Subscribes?
    ensures Due(svc, e)
    ensures var after := Apply(svc, e);
            e.symbol in after.states && e.client in after.states[e.symbol].subscribers ==>
              DepthOfRequest(svc.config, e.requested, after.states[e.symbol].subscribers[e.client])
  {
    hide ServiceOk, DepthOfRequest, Subscribe;
    SubscribingIsDue(svc, e);
    if e.symbol in svc.states || (|svc.states| < svc.config.maxSymbols && e.preflight != Unavailable(false)) {
      SubscriptionDepth(svc, e.client, e.symbol, e.requested, e.session, e.preflight, e.open);
    } else {
      NotAdmitted(svc, e.client, e.symbol, e.requested, e.session, e.preflight, e.open);
    }
  }

  /** A request that goes to the provider asks for the deepest of the subscribers there are at the grant. */
  lemma GrantAsksDeepest(config: Config, events: seq<Event>, key: Key, depth: int)
    requires var svc := After(config, events); Due(svc, Grant(key, true, depth)) && IsCurrent(svc, key)
    ensures var svc := After(config, events); var subscribers := svc.states[key.symbol].subscribers;
            && Apply(svc, Grant(key, true, depth)) == svc.(refreshes := svc.refreshes[key := AtProvider(depth)])
            && (config.maxLevels >= 1 ==>
                  (forall c :: c in subscribers ==> subscribers[c] <= depth) && exists c :: c in subscribers && subscribers[c] == depth)
            && (config.maxLevels < 1 ==> depth == config.maxLevels)
  {
    EveryServiceIsOk(config, events);
    ConfigKept(config, events);
    var svc := After(config, events);
    hide After, Counted, KeysOk, RetryDelay;
    var subscribers := svc.states[key.symbol].subscribers;
    assert Plain(svc, svc.states[key.symbol]);
    var client :| client in subscribers.Keys;
    if config.maxLevels >= 1 {
      assert 1 <= subscribers[client] <= depth;
      assert forall c :: c in subscribers ==> subscribers[c] <= depth;
    }
  }

  // ---------------------------------------------------------------------------
  // How a refresh ends
  // ---------------------------------------------------------------------------

  /** One failure more: the reason goes to the subscribers, nothing stays suspended, the longer poll is armed, nothing else changes. */
  predicate PutOff(svc: Service, after: Service, key: Key, reason: Reason) {
    && key.symbol in svc.states
    && var before := svc.states[key.symbol];
    && after == svc.(
         states := svc.states[key.symbol :=
           before.(inFlight := false, retryAttempt := before.retryAttempt + 1, latest := Some(Status(reason)),
                   pollTimer := Some(RetryDelay(svc.config, before.retryAttempt + 1)))],
         refreshes := svc.refreshes - {key},
         sent := svc.sent + [Publication(key, Status(reason))])
  }

  /** The provider's final refusal goes to the subscribers, and the symbol is gone with them. */
  predicate GivenUp(svc: Service, after: Service, key: Key) {
    && key.symbol in svc.states
    && after.states == svc.states - {key.symbol} && after.refreshes == svc.refreshes - {key}
    && after.sent == svc.sent + [Publication(key, Status(FromProvider(false)))]
    && after.activeSymbolGauge == svc.activeSymbolGauge - 1
    && after.subscriberGauge == svc.subscriberGauge - |svc.states[key.symbol].subscribers|
    && (after.sessionTimer <==> svc.sessionTimer && |after.states| > 0)
    && after.config == svc.config && after.nextId == svc.nextId && after.told == svc.told
  }

  /** The refresh waits at the limiter; everything else is as before. */
  predicate Suspended(svc: Service, after: Service, key: Key) {
    && key.symbol in svc.states
    && after == svc.(states := svc.states[key.symbol := svc.states[key.symbol].(inFlight := true, pollTimer := None)],
                     refreshes := svc.refreshes[key := AtLimiter])
  }

  /** A refresh reaches the limiter exactly when the provider does not refuse it beforehand and the market is open. */
  predicate BeginsAs(svc: Service, after: Service, key: Key, preflight: Preflight, open: bool) {
    match preflight
    case Unavailable(true) => PutOff(svc, after, key, FromProvider(true))
    case Unavailable(false) => GivenUp(svc, after, key)
    case Throws => PutOff(svc, after, key, LimiterUnavailable)
    case Proceed => if open then Suspended(svc, after, key) else PutOff(svc, after, key, MarketClosed)
  }

  lemma PostponeMeans(svc: Service, symbol: string, reason: Reason)
    requires symbol in svc.states && svc.states[symbol].pollTimer.None?
    ensures PutOff(svc, Postpone(svc, symbol, reason), KeyOf(symbol, svc.states[symbol]), reason)
  {
    hide RetryDelay;
  }

  /** No request without the poll having come round, and none at all outside the session. */
  lemma PollMeans(svc: Service, symbol: string, preflight: Preflight, open: bool)
    requires ServiceOk(svc) && symbol in svc.states && svc.states[symbol].pollTimer.Some?
    ensures BeginsAs(svc, PollFires(svc, symbol, preflight, open), KeyOf(symbol, svc.states[symbol]), preflight, open)
  {
    hide BodyOk;
    DrivenState(svc, symbol);
    BeginMeans(svc, symbol, preflight, open);
  }

  lemma BeginMeans(svc: Service, symbol: string, preflight: Preflight, open: bool)
    requires symbol in svc.states && KeyOf(symbol, svc.states[symbol]) !in svc.refreshes
    ensures BeginsAs(svc, BeginRefresh(svc, symbol, preflight, open), KeyOf(symbol, svc.states[symbol]), preflight, open)
  {
    hide RetryDelay, Postpone;
    var key := KeyOf(symbol, svc.states[symbol]);
    var begun := svc.(states := svc.states[symbol := svc.states[symbol].(inFlight := true, pollTimer := None)]);
    PostponeMeans(begun, symbol, FromProvider(true));
    PostponeMeans(begun, symbol, LimiterUnavailable);
    PostponeMeans(begun, symbol, MarketClosed);
    assert svc.refreshes - {key} == svc.refreshes;
    forall reason: Reason, after: Service | PutOff(begun, after, key, reason) ensures PutOff(svc, after, key, reason) {
      assert begun.states[symbol := after.states[symbol]] == svc.states[symbol := after.states[symbol]];
    }
    if preflight == Unavailable(false) { BeginRefused(svc, symbol, open); }
  }

  lemma BeginRefused(svc: Service, symbol: string, open: bool)
    requires symbol in svc.states && KeyOf(symbol, svc.states[symbol]) !in svc.refreshes
    ensures GivenUp(svc, BeginRefresh(svc, symbol, Unavailable(false), open), KeyOf(symbol, svc.states[symbol]))
  {
    hide RetryDelay, Postpone, Announce;
    var state := svc.states[symbol].(inFlight := true, pollTimer := None);
    var begun := svc.(states := svc.states[symbol := state]);
    AnnouncedRow(begun, symbol, state, Status(FromProvider(false)));
    RefusedStates(svc, begun, symbol, state);
    assert svc.refreshes - {KeyOf(symbol, svc.states[symbol])} == svc.refreshes;
  }

  lemma AnnouncedRow(svc: Service, symbol: string, state: SymbolState, message: Message)
    requires symbol in svc.states
    ensures var after := Announce(svc, symbol, state, message);
            && symbol in after.states && after.states[symbol].subscribers == state.subscribers
            && after == svc.(states := after.states, sent := svc.sent + [Publication(KeyOf(symbol, state), message)])
  {
  }

  /** The granted refresh goes to the provider if the session is still open, and is put off otherwise. */
  lemma GrantMeans(svc: Service, key: Key, open: bool, depth: int)
    requires ServiceOk(svc) && key in svc.refreshes && IsCurrent(svc, key)
    ensures var after := Granted(svc, key, open, depth);
            if open then after == svc.(refreshes := svc.refreshes[key := AtProvider(depth)]) else PutOff(svc, after, key, MarketClosed)
  {
    CurrentIsInFlight(svc, key);
    hide ServiceOk, Postpone;
    PostponeMeans(svc, key.symbol, MarketClosed);
  }

  /** The four ends of a request at the provider; the accepted snapshot leaves everything but its own symbol alone. */
  lemma FetchMeans(svc: Service, key: Key, answer: Answer, depth: int)
    requires ServiceOk(svc) && key in svc.refreshes && IsCurrent(svc, key)
    ensures var after := Fetched(svc, key, answer, depth);
            match answer
            case NotAvailable(true) => PutOff(svc, after, key, FromProvider(true))
            case NotAvailable(false) => GivenUp(svc, after, key)
            case Snapshot(snap, false) => PutOff(svc, after, key, MarketClosed)
            case Snapshot(snap, true) =>
              && key.symbol in after.states && after.states[key.symbol].subscribers == svc.states[key.symbol].subscribers
              && after == svc.(states := svc.states[key.symbol := after.states[key.symbol]],
                               refreshes := svc.refreshes - {key}, sent := after.sent)
  {
    CurrentIsInFlight(svc, key);
    hide ServiceOk, Postpone, RetryDelay, LastOf;
    PostponeMeans(svc, key.symbol, FromProvider(true));
    PostponeMeans(svc, key.symbol, MarketClosed);
    match answer
    case NotAvailable(retryable) => if !retryable { FetchRefused(svc, key, depth); }
    case Snapshot(snap, inSession) => if inSession { FetchAccepted(svc, key, snap, depth); }
  }

  lemma FetchRefused(svc: Service, key: Key, depth: int)
    requires key in svc.refreshes && IsCurrent(svc, key)
    ensures GivenUp(svc, Fetched(svc, key, NotAvailable(false), depth), key)
  {
    hide RetryDelay, Postpone, Announce;
    var state := svc.states[key.symbol];
    AnnouncedRow(svc, key.symbol, state, Status(FromProvider(false)));
    RefusedStates(svc, svc, key.symbol, state);
  }

  lemma FetchAccepted(svc: Service, key: Key, snap: Snap, depth: int)
    requires key in svc.refreshes && IsCurrent(svc, key)
    ensures var after := Fetched(svc, key, Snapshot(snap, true), depth);
            && key.symbol in after.states && after.states[key.symbol].subscribers == svc.states[key.symbol].subscribers
            && after == svc.(states := svc.states[key.symbol := after.states[key.symbol]],
                             refreshes := svc.refreshes - {key}, sent := after.sent)
  {
    hide RetryDelay, LastOf, Postpone;
    var after := Fetched(svc, key, Snapshot(snap, true), depth);
    assert after.states == svc.states[key.symbol := after.states[key.symbol]];
  }

  /** An exception is put down to the limiter before the request and to the provider during it. */
  lemma ThrowMeans(svc: Service, key: Key)
    requires ServiceOk(svc) && key in svc.refreshes && IsCurrent(svc, key)
    ensures PutOff(svc, Threw(svc, key), key, if svc.refreshes[key].AtLimiter? then LimiterUnavailable else ProviderError)
  {
    CurrentIsInFlight(svc, key);
    hide ServiceOk, Postpone;
    PostponeMeans(svc, key.symbol, if svc.refreshes[key].AtLimiter? then LimiterUnavailable else ProviderError);
  }

  /** The first wait after a success is the poll time, and after one failure the poll time up to the cap. */
  lemma DelayStarts(config: Config)
    ensures RetryDelay(config, 0) == config.pollMs
    ensures RetryDelay(config, 1) == if config.pollMs <= config.maxRetryMs then config.pollMs else config.maxRetryMs
  {
    assert PowerOfTwo(0) == 1;
  }

  // ---------------------------------------------------------------------------
  // Subscribing
  // ---------------------------------------------------------------------------

  /** A symbol nobody listened to: one subscriber, nothing seen yet, and a first refresh begun at once. */
  lemma FirstSubscriptionMeans(svc: Service, client: Client, symbol: string, requested: int, session: string, preflight: Preflight, open: bool)
    requires ServiceOk(svc) && symbol !in svc.states && |svc.states| < svc.config.maxSymbols
    ensures exists depth :: DepthOfRequest(svc.config, requested, depth)
              && var state := SymbolState(svc.nextId, 1, map[client := depth], [], None, None, None, false, false, 0, session, None);
                 var listed := svc.(order := svc.order + [symbol], states := svc.states[symbol := state], nextId := svc.nextId + 1,
                                    activeSymbolGauge := svc.activeSymbolGauge + 1, subscriberGauge := svc.subscriberGauge + 1,
                                    sessionTimer := true);
                 BeginsAs(listed, Subscribe(svc, client, symbol, requested, session, preflight, open), Key(symbol, svc.nextId, 1), preflight, open)
  {
    hide BeginRefresh, BeginsAs, ClampLevels, DepthOfRequest, ServiceOk;
    ClampedDepth(svc.config, requested);
    NewKey(svc, symbol);
    var joined := Joined(Created(svc, symbol, session), symbol, client, requested);
    var depth := joined.states[symbol].subscribers[client];
    var state := SymbolState(svc.nextId, 1, map[client := depth], [], None, None, None, false, false, 0, session, None);
    assert joined.states == svc.states[symbol := state];
    BeginMeans(joined, symbol, preflight, open);
  }

  lemma NewKey(svc: Service, symbol: string)
    requires ServiceOk(svc)
    ensures Key(symbol, svc.nextId, 1) !in svc.refreshes
  {
  }

  /** A symbol already driven: the client joins or changes its depth, hears the latest message alone, and no request is added. */
  lemma FurtherSubscriptionMeans(svc: Service, client: Client, symbol: string, requested: int, session: string, preflight: Preflight, open: bool)
    requires ServiceOk(svc) && symbol in svc.states
    ensures var after := Subscribe(svc, client, symbol, requested, session, preflight, open); var before := svc.states[symbol];
            && symbol in after.states && client in after.states[symbol].subscribers
            && DepthOfRequest(svc.config, requested, after.states[symbol].subscribers[client])
            && after == svc.(
                 states := svc.states[symbol := before.(subscribers := before.subscribers[client := after.states[symbol].subscribers[client]])],
                 subscriberGauge := svc.subscriberGauge + (if client in before.subscribers then 0 else 1),
                 told := svc.told + (match before.latest case Some(message) => [(client, message)] case None => []))
  {
    hide BodyOk, ClampLevels, DepthOfRequest;
    ClampedDepth(svc.config, requested);
    DrivenState(svc, symbol);
  }

  /** Beyond the capacity the client alone hears of it, and nothing changes. */
  lemma FullServiceRefuses(svc: Service, client: Client, symbol: string, requested: int, session: string, preflight: Preflight, open: bool)
    requires symbol !in svc.states && |svc.states| >= svc.config.maxSymbols
    ensures Subscribe(svc, client, symbol, requested, session, preflight, open) == svc.(told := svc.told + [(client, Status(NoData))])
  {
    hide BeginRefresh;
  }

  // ---------------------------------------------------------------------------
  // A new session
  // ---------------------------------------------------------------------------

  function Fresh(state: SymbolState, session: string): SymbolState {
    SymbolState(state.id, state.generation + 1, state.subscribers, [], None, None, None, false, false, 0, session, Some(Status(NoData)))
  }

  function OutlookOf(outlooks: map<string, Outlook>, symbol: string): Outlook {
    if symbol in outlooks then outlooks[symbol] else Outlook(Proceed, false)
  }

  /** The row of a symbol that starts over: gone, waiting at the limiter, or put off once. */
  predicate StartedOver(after: Service, symbol: string, before: SymbolState, session: string, outlook: Outlook) {
    var state := Fresh(before, session);
    if outlook.preflight == Unavailable(false) then symbol !in after.states
    else if outlook == Outlook(Proceed, true) then
      symbol in after.states && after.states[symbol] == state.(inFlight := true)
      && KeyOf(symbol, state) in after.refreshes && after.refreshes[KeyOf(symbol, state)] == AtLimiter
    else
      var reason := match outlook.preflight case Unavailable(_) => FromProvider(true) case Throws => LimiterUnavailable case Proceed => MarketClosed;
      symbol in after.states && after.states[symbol] ==
        state.(retryAttempt := 1, pollTimer := Some(RetryDelay(after.config, 1)), latest := Some(Status(reason)))
  }

  predicate Announced(after: Service, symbol: string, before: SymbolState) {
    Publication(Key(symbol, before.id, before.generation + 1), Status(NoData)) in after.sent
  }

  lemma ResetMeans(svc: Service, symbol: string, session: string, outlook: Outlook)
    requires BodyOk(svc) && symbol in svc.states
    ensures var told := svc.(states := svc.states[symbol := Fresh(svc.states[symbol], session)],
                             sent := svc.sent + [Publication(Key(symbol, svc.states[symbol].id, svc.states[symbol].generation + 1), Status(NoData))]);
            BeginsAs(told, ResetSymbol(svc, symbol, session, outlook), KeyOf(symbol, told.states[symbol]), outlook.preflight, outlook.open)
  {
    hide BodyOk, BeginRefresh, BeginsAs;
    var told := Announce(svc, symbol, Renewed(svc.states[symbol], session), Status(NoData));
    RenewedKeeps(svc, symbol, session);
    BeginMeans(told, symbol, outlook.preflight, outlook.open);
  }

  lemma BegunRow(svc: Service, after: Service, symbol: string, before: SymbolState, session: string, outlook: Outlook)
    requires symbol in svc.states && svc.states[symbol] == Fresh(before, session)
    requires BeginsAs(svc, after, KeyOf(symbol, svc.states[symbol]), outlook.preflight, outlook.open)
    ensures StartedOver(after, symbol, before, session, outlook)
  {
    hide RetryDelay, Fresh;
    FreshRow(before, session);
  }

  lemma FreshRow(before: SymbolState, session: string)
    ensures var state := Fresh(before, session); state.retryAttempt == 0 && !state.inFlight && state.pollTimer.None?
  {
  }

  /** A symbol's row, its suspended refreshes and what was sent stay. */
  ghost predicate SameRow(svc: Service, after: Service, symbol: string) {
    && after.config == svc.config && svc.sent <= after.sent
    && (symbol in after.states <==> symbol in svc.states)
    && (symbol in svc.states ==> after.states[symbol] == svc.states[symbol])
    && (forall key: Key :: key.symbol == symbol ==> (key in after.refreshes <==> key in svc.refreshes))
    && (forall key: Key :: key.symbol == symbol && key in svc.refreshes ==> after.refreshes[key] == svc.refreshes[key])
  }

  lemma BegunElsewhere(svc: Service, after: Service, key: Key, preflight: Preflight, open: bool, other: string)
    requires BeginsAs(svc, after, key, preflight, open) && other != key.symbol
    ensures SameRow(svc, after, other)
  {
    hide RetryDelay;
  }

  lemma ResetElsewhere(svc: Service, symbol: string, session: string, outlook: Outlook, other: string)
    requires BodyOk(svc) && symbol in svc.states && other != symbol
    ensures SameRow(svc, ResetSymbol(svc, symbol, session, outlook), other)
  {
    hide BodyOk, BeginsAs, ResetSymbol;
    var told := svc.(states := svc.states[symbol := Fresh(svc.states[symbol], session)],
                     sent := svc.sent + [Publication(Key(symbol, svc.states[symbol].id, svc.states[symbol].generation + 1), Status(NoData))]);
    ResetMeans(svc, symbol, session, outlook);
    BegunElsewhere(told, ResetSymbol(svc, symbol, session, outlook), KeyOf(symbol, told.states[symbol]), outlook.preflight, outlook.open, other);
  }

  lemma ResetHere(svc: Service, symbol: string, session: string, outlook: Outlook)
    requires BodyOk(svc) && symbol in svc.states
    ensures StartedOver(ResetSymbol(svc, symbol, session, outlook), symbol, svc.states[symbol], session, outlook)
    ensures Announced(ResetSymbol(svc, symbol, session, outlook), symbol, svc.states[symbol])
  {
    hide BodyOk, ResetSymbol, StartedOver, RetryDelay;
    var told := svc.(states := svc.states[symbol := Fresh(svc.states[symbol], session)],
                     sent := svc.sent + [Publication(Key(symbol, svc.states[symbol].id, svc.states[symbol].generation + 1), Status(NoData))]);
    ResetMeans(svc, symbol, session, outlook);
    var after := ResetSymbol(svc, symbol, session, outlook);
    BegunRow(told, after, symbol, svc.states[symbol], session, outlook);
    assert told.sent <= after.sent;
    assert told.sent[|svc.sent|] == after.sent[|svc.sent|];
  }

  lemma StartedOverStays(svc: Service, after: Service, symbol: string, before: SymbolState, session: string, outlook: Outlook)
    requires StartedOver(svc, symbol, before, session, outlook) && Announced(svc, symbol, before)
    requires SameRow(svc, after, symbol)
    ensures StartedOver(after, symbol, before, session, outlook) && Announced(after, symbol, before)
  {
    hide RetryDelay;
  }

  /** The symbols are reset one after the other, none twice. */
  lemma {:induction false} ResetAllMeans(svc: Service, symbols: seq<string>, session: string, outlooks: map<string, Outlook>, symbol: string)
    requires BodyOk(svc) && !svc.sessionTimer && NoRepeats(symbols) && (symbol in symbols ==> symbol in svc.states)
    ensures var after := ResetAll(svc, symbols, session, outlooks);
            && after.config == svc.config && svc.sent <= after.sent
            && (symbol in symbols ==> StartedOver(after, symbol, svc.states[symbol], session, OutlookOf(outlooks, symbol))
                                      && Announced(after, symbol, svc.states[symbol]))
            && (symbol !in symbols ==> SameRow(svc, after, symbol))
    decreases symbols
  {
    hide BodyOk, ResetSymbol, StartedOver, Announced;
    if symbols != [] {
      var (first, rest) := (symbols[0], symbols[1..]);
      var next := if first in svc.states then ResetSymbol(svc, first, session, OutlookOf(outlooks, first)) else svc;
      if first in svc.states {
        ResetSymbolKeeps(svc, first, session, OutlookOf(outlooks, first));
        if first == symbol { ResetHere(svc, first, session, OutlookOf(outlooks, first)); } else { ResetElsewhere(svc, first, session, OutlookOf(outlooks, first), symbol); }
        ResetGrows(svc, first, session, OutlookOf(outlooks, first));
      }
      assert symbol in symbols <==> symbol == first || symbol in rest;
      ResetAllMeans(next, rest, session, outlooks, symbol);
      if symbol == first && symbol in svc.states {
        StartedOverStays(next, ResetAll(next, rest, session, outlooks), symbol, svc.states[symbol], session, OutlookOf(outlooks, symbol));
      }
    }
  }

  lemma ResetGrows(svc: Service, symbol: string, session: string, outlook: Outlook)
    requires BodyOk(svc) && symbol in svc.states
    ensures ResetSymbol(svc, symbol, session, outlook).config == svc.config && svc.sent <= ResetSymbol(svc, symbol, session, outlook).sent
  {
    ResetElsewhere(svc, symbol, session, outlook, symbol + "x");
  }

  /**
   When the session changes every symbol starts over under the next generation with its subscribers, told
   once that the data is gone; each is then refreshed, put off or dropped by what the provider says of it,
   and no symbol is added.
   */
  lemma BoundaryMeans(config: Config, events: seq<Event>, session: string, outlooks: map<string, Outlook>, symbol: string)
    requires After(config, events).sessionTimer
    ensures var svc := After(config, events); var after := SessionBoundary(svc, session, outlooks);
            && svc.sent <= after.sent
            && (symbol in svc.states ==> StartedOver(after, symbol, svc.states[symbol], session, OutlookOf(outlooks, symbol))
                                         && Announced(after, symbol, svc.states[symbol]))
            && (symbol !in svc.states ==> symbol !in after.states)
  {
    hide After, ServiceOk, SessionBoundary, StartedOver, Announced;
    EveryServiceIsOk(config, events);
    BoundaryRow(After(config, events), session, outlooks, symbol);
  }

  lemma BoundaryRow(svc: Service, session: string, outlooks: map<string, Outlook>, symbol: string)
    requires ServiceOk(svc) && svc.sessionTimer
    ensures var after := SessionBoundary(svc, session, outlooks);
            && svc.sent <= after.sent
            && (symbol in svc.states ==> StartedOver(after, symbol, svc.states[symbol], session, OutlookOf(outlooks, symbol))
                                         && Announced(after, symbol, svc.states[symbol]))
            && (symbol !in svc.states ==> symbol !in after.states)
  {
    hide BodyOk, ResetAll, StartedOver, Announced;
    OrderIsStates(svc);
    TimerOnly(svc, false);
    var before := svc.(sessionTimer := false);
    ResetAllMeans(before, svc.order, session, outlooks, symbol);
    if symbol in svc.states {
      StartedOverStays(ResetAll(before, svc.order, session, outlooks), SessionBoundary(svc, session, outlooks), symbol, svc.states[symbol], session, OutlookOf(outlooks, symbol));
    }
  }

  lemma OrderIsStates(svc: Service)
    requires BodyOk(svc)
    ensures NoRepeats(svc.order) && forall s :: s in svc.order <==> s in svc.states
  {
  }
}
