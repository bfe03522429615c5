/**
 What each callback of the shared Level 2 service does to its maps, per symbol: subscriptions, the
 poll timer, the request in flight, the stale timer, the session's history, and the gauges.

 A refresh suspended at one of its two awaits is an entry of refreshes, keyed by the symbol, the
 identity of the state object it holds and the generation it started under.
 */
module OrderBookRules {
  import opened Wrappers

  type Client = nat

  datatype Config = Config(pollMs: nat, maxRetryMs: nat, staleMs: int, maxSymbols: nat, maxHistory: nat, maxLevels: int)

  datatype Snap = Snap(observedAt: int, session: string)

  datatype Reason = NoData | MarketClosed | ProviderError | LimiterUnavailable | Stale | FromProvider(retryable: bool)

  datatype Message = Status(reason: Reason) | SnapshotMessage(snap: Snap, depth: int)

  datatype SymbolState = SymbolState(
    id: nat,
    generation: nat,
    subscribers: map<Client, int>,
    history: seq<Snap>,
    lastObservationAt: Option<int>,
    pollTimer: Option<nat>,
    staleTimer: Option<nat>,
    inFlight: bool,
    staleSent: bool,
    retryAttempt: nat,
    session: string,
    latest: Option<Message>)

  datatype Key = Key(symbol: string, id: nat, generation: nat)

  datatype Stage = AtLimiter | AtProvider(depth: int)

  datatype Publication = Publication(key: Key, message: Message)

  /** order is the insertion order of the states map; sent is everything broadcast, told everything said to one client. */
  datatype Service = Service(
    config: Config,
    order: seq<string>,
    states: map<string, SymbolState>,
    refreshes: map<Key, Stage>,
    nextId: nat,
    activeSymbolGauge: int,
    subscriberGauge: int,
    sessionTimer: bool,
    sent: seq<Publication>,
    told: seq<(Client, Message)>)

  /** What the provider says before any request is made. */
  datatype Preflight = Proceed | Unavailable(retryable: bool) | Throws

  datatype Answer = Snapshot(snap: Snap, inSession: bool) | NotAvailable(retryable: bool)

  function Start(config: Config): Service {
    Service(config, [], map[], map[], 0, 0, 0, false, [], [])
  }

  // ---------------------------------------------------------------------------
  // Arithmetic
  // ---------------------------------------------------------------------------

  function PowerOfTwo(n: nat): (p: nat)
    ensures p >= 1
  {
    if n == 0 then 1 else 2 * PowerOfTwo(n - 1)
  }

  /** Exponential back-off after failures, capped. */
  function RetryDelay(config: Config, retryAttempt: nat): nat {
    if retryAttempt == 0 then config.pollMs
    else
      var delay := config.pollMs * PowerOfTwo(retryAttempt - 1);
      if delay < config.maxRetryMs then delay else config.maxRetryMs
  }

  /** Requested levels, already truncated to an integer. */
  function ClampLevels(config: Config, requested: int): int {
    var levels := if requested == 0 then 1 else requested;
    var capped := if config.maxLevels < levels then config.maxLevels else levels;
    if capped > 1 then capped else 1
  }

  /** The deepest request among the subscribers, within the configured maximum. */
  ghost predicate IsRequestedDepth(config: Config, subscribers: map<Client, int>, depth: int) {
    if config.maxLevels < 1 then depth == config.maxLevels
    else
      && 1 <= depth <= config.maxLevels
      && (forall c :: c in subscribers ==> subscribers[c] <= depth || depth == config.maxLevels)
      && (depth == 1 || exists c :: c in subscribers && subscribers[c] >= depth)
  }

  // ---------------------------------------------------------------------------
  // Small steps
  // ---------------------------------------------------------------------------

  function KeyOf(symbol: string, state: SymbolState): Key { Key(symbol, state.id, state.generation) }

  predicate IsCurrent(svc: Service, key: Key) {
    && key.symbol in svc.states
    && KeyOf(key.symbol, svc.states[key.symbol]) == key
    && |svc.states[key.symbol].subscribers| > 0
  }

  /** Stores a symbol's new state and broadcasts its message. */
  function Announce(svc: Service, symbol: string, state: SymbolState, message: Message): Service {
    svc.(states := svc.states[symbol := state.(latest := Some(message))],
         sent := svc.sent + [Publication(KeyOf(symbol, state), message)])
  }

  /** A refresh that ends while current: no request in flight any more, and the next poll is armed. */
  function Rest(svc: Service, symbol: string): Service
    requires symbol in svc.states
  {
    var state := svc.states[symbol];
    svc.(states := svc.states[symbol := state.(inFlight := false,
           pollTimer := if state.pollTimer.Some? then state.pollTimer else Some(RetryDelay(svc.config, state.retryAttempt)))],
         refreshes := svc.refreshes - {KeyOf(symbol, state)})
  }

  /** The refresh failed for now. */
  function Postpone(svc: Service, symbol: string, reason: Reason): Service
    requires symbol in svc.states
  {
    var state := svc.states[symbol];
    Rest(Announce(svc, symbol, state.(retryAttempt := state.retryAttempt + 1), Status(reason)), symbol)
  }

  function Dropped(order: seq<string>, symbol: string): seq<string> {
    if order == [] then []
    else if order[0] == symbol then order[1..]
    else [order[0]] + Dropped(order[1..], symbol)
  }

  /** The symbol is forgotten with its subscribers; the last one takes the session timer along. */
  function Teardown(svc: Service, symbol: string): Service
    requires symbol in svc.states
  {
    var states := svc.states - {symbol};
    svc.(order := Dropped(svc.order, symbol),
         states := states,
         subscriberGauge := svc.subscriberGauge - |svc.states[symbol].subscribers|,
         activeSymbolGauge := svc.activeSymbolGauge - 1,
         sessionTimer := svc.sessionTimer && |states| > 0)
  }

  /** A refresh up to its first await. */
  function BeginRefresh(svc: Service, symbol: string, preflight: Preflight, open: bool): Service
    requires symbol in svc.states
  {
    var state := svc.states[symbol].(inFlight := true, pollTimer := None);
    var begun := svc.(states := svc.states[symbol := state]);
    match preflight
    case Unavailable(retryable) =>
      if retryable then Postpone(begun, symbol, FromProvider(true))
      else Teardown(Announce(begun, symbol, state, Status(FromProvider(false))), symbol)
    case Throws => Postpone(begun, symbol, LimiterUnavailable)
    case Proceed =>
      if !open then Postpone(begun, symbol, MarketClosed)
      else begun.(refreshes := begun.refreshes[KeyOf(symbol, state) := AtLimiter])
  }

  // ---------------------------------------------------------------------------
  // Requests of clients
  // ---------------------------------------------------------------------------

  function NewState(svc: Service, session: string): SymbolState {
    SymbolState(svc.nextId, 1, map[], [], None, None, None, false, false, 0, session, None)
  }

  function Created(svc: Service, symbol: string, session: string): Service {
    svc.(order := svc.order + [symbol],
         states := svc.states[symbol := NewState(svc, session)],
         nextId := svc.nextId + 1,
         activeSymbolGauge := svc.activeSymbolGauge + 1,
         sessionTimer := true)
  }

  function Joined(svc: Service, symbol: string, client: Client, requested: int): Service
    requires symbol in svc.states
  {
    var state := svc.states[symbol];
    svc.(states := svc.states[symbol := state.(subscribers := state.subscribers[client := ClampLevels(svc.config, requested)])],
         subscriberGauge := svc.subscriberGauge + if client in state.subscribers then 0 else 1,
         told := if state.latest.Some? then svc.told + [(client, state.latest.value)] else svc.told)
  }

  function Subscribe(svc: Service, client: Client, symbol: string, requested: int, session: string, preflight: Preflight, open: bool): Service {
    if symbol !in svc.states && |svc.states| >= svc.config.maxSymbols then svc.(told := svc.told + [(client, Status(NoData))])
    else
      var known := if symbol in svc.states then svc else Created(svc, symbol, session);
      var joined := Joined(known, symbol, client, requested);
      var state := joined.states[symbol];
      if state.inFlight || state.pollTimer.Some? then joined else BeginRefresh(joined, symbol, preflight, open)
  }

  function Unsubscribe(svc: Service, client: Client, symbol: string): Service {
    if symbol !in svc.states then svc
    else
      var state := svc.states[symbol];
      var left := svc.(states := svc.states[symbol := state.(subscribers := state.subscribers - {client})],
                       subscriberGauge := svc.subscriberGauge - if client in state.subscribers then 1 else 0);
      if |left.states[symbol].subscribers| == 0 then Teardown(left, symbol) else left
  }

  /** The client leaves these symbols, one after the other. */
  function LeaveAll(svc: Service, client: Client, symbols: seq<string>): Service
    decreases symbols
  {
    if symbols == [] then svc else LeaveAll(Unsubscribe(svc, client, symbols[0]), client, symbols[1..])
  }

  function Disconnect(svc: Service, client: Client): Service { LeaveAll(svc, client, svc.order) }

  function TeardownAll(svc: Service, symbols: seq<string>): Service
    decreases symbols
  {
    if symbols == [] then svc
    else TeardownAll(if symbols[0] in svc.states then Teardown(svc, symbols[0]) else svc, symbols[1..])
  }

  function Destroy(svc: Service): Service { TeardownAll(svc, svc.order) }

  // ---------------------------------------------------------------------------
  // Timers and answers
  // ---------------------------------------------------------------------------

  function PollFires(svc: Service, symbol: string, preflight: Preflight, open: bool): Service
    requires symbol in svc.states && svc.states[symbol].pollTimer.Some?
  {
    BeginRefresh(svc, symbol, preflight, open)
  }

  /** The limiter has granted the request. */
  function Granted(svc: Service, key: Key, open: bool, depth: int): Service
    requires key in svc.refreshes
  {
    if !IsCurrent(svc, key) then svc.(refreshes := svc.refreshes - {key})
    else if !open then Postpone(svc, key.symbol, MarketClosed)
    else svc.(refreshes := svc.refreshes[key := AtProvider(depth)])
  }

  function LastOf(history: seq<Snap>, most: nat): seq<Snap> {
    if |history| <= most then history else history[|history| - most..]
  }

  function Accept(svc: Service, symbol: string, snap: Snap, depth: int): Service
    requires symbol in svc.states
  {
    var before := svc.states[symbol];
    var renewed :=
      if before.session == snap.session then svc
      else Announce(svc, symbol, before.(history := [], lastObservationAt := None, staleSent := false, session := snap.session), Status(NoData));
    var state := renewed.states[symbol];
    Announce(renewed, symbol,
             state.(history := LastOf(state.history + [snap], svc.config.maxHistory), lastObservationAt := Some(snap.observedAt),
                    staleSent := false, staleTimer := Some(state.generation)),
             SnapshotMessage(snap, depth))
  }

  function Fetched(svc: Service, key: Key, answer: Answer, depth: int): Service
    requires key in svc.refreshes
  {
    if !IsCurrent(svc, key) then svc.(refreshes := svc.refreshes - {key})
    else
      var state := svc.states[key.symbol];
      match answer
      case NotAvailable(retryable) =>
        if retryable then Postpone(svc, key.symbol, FromProvider(true))
        else
          var told := Teardown(Announce(svc, key.symbol, state, Status(FromProvider(false))), key.symbol);
          told.(refreshes := told.refreshes - {key})
      case Snapshot(snap, inSession) =>
        if !inSession then Postpone(svc, key.symbol, MarketClosed)
        else
          var calm := svc.(states := svc.states[key.symbol := state.(retryAttempt := 0)]);
          Rest(Accept(calm, key.symbol, snap, depth), key.symbol)
  }

  /** The limiter or the provider threw. */
  function Threw(svc: Service, key: Key): Service
    requires key in svc.refreshes
  {
    if !IsCurrent(svc, key) then svc.(refreshes := svc.refreshes - {key})
    else Postpone(svc, key.symbol, if svc.refreshes[key].AtLimiter? then LimiterUnavailable else ProviderError)
  }

  function StaleFires(svc: Service, symbol: string, now: int): Service
    requires symbol in svc.states && svc.states[symbol].staleTimer.Some?
  {
    var state := svc.states[symbol].(staleTimer := None);
    if !IsCurrent(svc, Key(symbol, state.id, svc.states[symbol].staleTimer.value)) || state.staleSent
       || state.lastObservationAt.None? || now - state.lastObservationAt.value < svc.config.staleMs
    then svc.(states := svc.states[symbol := state])
    else Announce(svc, symbol, state.(staleSent := true), Status(Stale))
  }

  function Renewed(state: SymbolState, session: string): SymbolState {
    SymbolState(state.id, state.generation + 1, state.subscribers, [], None, None, None, false, false, 0, session, None)
  }

  /** What the provider and the market say to each symbol when the session changes. */
  datatype Outlook = Outlook(preflight: Preflight, open: bool)

  function ResetSymbol(svc: Service, symbol: string, session: string, outlook: Outlook): Service
    requires symbol in svc.states
  {
    var told := Announce(svc, symbol, Renewed(svc.states[symbol], session), Status(NoData));
    if |told.states[symbol].subscribers| > 0 then BeginRefresh(told, symbol, outlook.preflight, outlook.open)
    else Teardown(told, symbol)
  }

  function ResetAll(svc: Service, symbols: seq<string>, session: string, outlooks: map<string, Outlook>): Service
    decreases symbols
  {
    if symbols == [] then svc
    else
      var outlook := if symbols[0] in outlooks then outlooks[symbols[0]] else Outlook(Proceed, false);
      ResetAll(if symbols[0] in svc.states then ResetSymbol(svc, symbols[0], session, outlook) else svc,
               symbols[1..], session, outlooks)
  }

  function SessionBoundary(svc: Service, session: string, outlooks: map<string, Outlook>): Service
    requires svc.sessionTimer
  {
    var after := ResetAll(svc.(sessionTimer := false), svc.order, session, outlooks);
    after.(sessionTimer := |after.states| > 0)
  }

  // ---------------------------------------------------------------------------
  // The machine
  // ---------------------------------------------------------------------------

  datatype Event =
    | Subscribes(client: Client, symbol: string, requested: int, session: string, preflight: Preflight, open: bool)
    | Unsubscribes(client: Client, symbol: string)
    | Disconnects(client: Client)
    | Shutdown
    | Poll(symbol: string, preflight: Preflight, open: bool)
    | Grant(key: Key, open: bool, depth: int)
    | Fetch(key: Key, answer: Answer, depth: int)
    | Throw(key: Key)
    | StaleTimer(symbol: string, now: int)
    | Boundary(session: string, outlooks: map<string, Outlook>)

  /** A callback that can happen now; the provider is asked for the depth its subscribers request. */
  ghost predicate Due(svc: Service, e: Event) {
    match e
    case Subscribes(_, _, _, _, _, _) => true
    case Unsubscribes(_, _) => true
    case Disconnects(_) => true
    case Shutdown => true
    case Poll(symbol, _, _) => symbol in svc.states && svc.states[symbol].pollTimer.Some?
    case Grant(key, _, depth) => key in svc.refreshes && svc.refreshes[key].AtLimiter? && DepthFor(svc, key, depth)
    case Fetch(key, _, depth) => key in svc.refreshes && svc.refreshes[key].AtProvider? && DepthFor(svc, key, depth)
    case Throw(key) => key in svc.refreshes
    case StaleTimer(symbol, _) => symbol in svc.states && svc.states[symbol].staleTimer.Some?
    case Boundary(_, _) => svc.sessionTimer
  }

  ghost predicate DepthFor(svc: Service, key: Key, depth: int) {
    IsCurrent(svc, key) ==> IsRequestedDepth(svc.config, svc.states[key.symbol].subscribers, depth)
  }

  ghost function Apply(svc: Service, e: Event): Service
    requires Due(svc, e)
  {
    match e
    case Subscribes(client, symbol, requested, session, preflight, open) => Subscribe(svc, client, symbol, requested, session, preflight, open)
    case Unsubscribes(client, symbol) => Unsubscribe(svc, client, symbol)
    case Disconnects(client) => Disconnect(svc, client)
    case Shutdown => Destroy(svc)
    case Poll(symbol, preflight, open) => PollFires(svc, symbol, preflight, open)
    case Grant(key, open, depth) => Granted(svc, key, open, depth)
    case Fetch(key, answer, depth) => Fetched(svc, key, answer, depth)
    case Throw(key) => Threw(svc, key)
    case StaleTimer(symbol, now) => StaleFires(svc, symbol, now)
    case Boundary(session, outlooks) => SessionBoundary(svc, session, outlooks)
  }

  /** The service after a schedule of callbacks; a callback that is not due does nothing. */
  ghost function After(config: Config, events: seq<Event>): Service {
    if events == [] then Start(config)
    else
      var before := After(config, events[..|events| - 1]);
      if Due(before, events[|events| - 1]) then Apply(before, events[|events| - 1]) else before
  }
}
