/** The Level 2 service object: its methods change the maps in place, as the rules say. */
module OrderBookService {
  import opened Wrappers
  import opened OrderBookRules

  const SESSION_WINDOW_MS := 30 * 60 * 60 * 1000

  /** Within the window a session's label does not come back once it has changed. */
  ghost predicate NeverReturns(sessionOf: int -> string, nowMs: int) {
    forall t, u :: nowMs <= t <= u <= nowMs + 30 * 60 * 60 * 1000 && sessionOf(t) != sessionOf(nowMs) ==> sessionOf(u) != sessionOf(nowMs)
  }

  /** The first millisecond of the next session, by bisection on the session's label. */
  method NextNewYorkSessionBoundary(sessionOf: int -> string, nowMs: int) returns (boundary: int)
    ensures nowMs < boundary <= nowMs + 30 * 60 * 60 * 1000
    ensures sessionOf(boundary - 1) == sessionOf(nowMs)
    ensures sessionOf(nowMs + 30 * 60 * 60 * 1000) != sessionOf(nowMs) ==> sessionOf(boundary) != sessionOf(nowMs)
    ensures NeverReturns(sessionOf, nowMs) ==> forall t :: nowMs <= t < boundary ==> sessionOf(t) == sessionOf(nowMs)
    ensures NeverReturns(sessionOf, nowMs) && sessionOf(nowMs + 30 * 60 * 60 * 1000) == sessionOf(nowMs) ==> boundary == nowMs + 30 * 60 * 60 * 1000
  {
    var current := sessionOf(nowMs);
    var low, high := nowMs, nowMs + SESSION_WINDOW_MS;
    while high - low > 1
      invariant nowMs <= low < high <= nowMs + SESSION_WINDOW_MS
      invariant sessionOf(low) == current
      invariant sessionOf(high) != current || high == nowMs + SESSION_WINDOW_MS
      decreases high - low
    {
      var middle := low + (high - low) / 2;
      if sessionOf(middle) == current { low := middle; } else { high := middle; }
    }
    boundary := high;
    assert NeverReturns(sessionOf, nowMs) ==> forall t :: nowMs <= t <= low ==> sessionOf(t) == current;
  }

  class OrderBookService {
    const config: Config
    var order: seq<string>
    var states: map<string, SymbolState>
    var refreshes: map<Key, Stage>
    var nextId: nat
    var activeSymbolGauge: int
    var subscriberGauge: int
    var sessionTimer: bool
    var sent: seq<Publication>
    var told: seq<(Client, Message)>

    constructor (config: Config)
      ensures Contents() == Start(config)
    {
      this.config := config;
      order, states, refreshes, nextId := [], map[], map[], 0;
      activeSymbolGauge, subscriberGauge, sessionTimer := 0, 0, false;
      sent, told := [], [];
    }

    function Contents(): Service
      reads this
    {
      Service(config, order, states, refreshes, nextId, activeSymbolGauge, subscriberGauge, sessionTimer, sent, told)
    }

    method CreateState(symbol: string, session: string)
      requires symbol !in states
      modifies this
      ensures Contents() == Created(old(Contents()), symbol, session)
    {
      states := states[symbol := SymbolState(nextId, 1, map[], [], None, None, None, false, false, 0, session, None)];
      order := order + [symbol];
      nextId := nextId + 1;
      activeSymbolGauge := activeSymbolGauge + 1;
      sessionTimer := true;
    }

    /** The client is added, or its depth replaced, and hears the latest message. */
    method Join(client: Client, symbol: string, requested: int)
      requires symbol in states
      modifies this
      ensures Contents() == Joined(old(Contents()), symbol, client, requested)
    {
      hide ClampLevels;
      var state := states[symbol];
      if client !in state.subscribers { subscriberGauge := subscriberGauge + 1; }
      states := states[symbol := state.(subscribers := state.subscribers[client := ClampLevels(config, requested)])];
      if state.latest.Some? { told := told + [(client, state.latest.value)]; }
    }

    method AddSubscriber(client: Client, symbol: string, requested: int, session: string, preflight: Preflight, open: bool)
      modifies this
      ensures Contents() == Subscribe(old(Contents()), client, symbol, requested, session, preflight, open)
    {
      hide BeginRefresh, ClampLevels;
      if symbol !in states {
        if |states| >= config.maxSymbols {
          told := told + [(client, Status(NoData))];
          return;
        }
        CreateState(symbol, session);
      }
      Join(client, symbol, requested);
      var state := states[symbol];
      if !state.inFlight && state.pollTimer.None? { Refresh(symbol, preflight, open); }
    }

    /** A refresh up to the point where it first waits. */
    method Refresh(symbol: string, preflight: Preflight, open: bool)
      requires symbol in states
      modifies this
      ensures Contents() == BeginRefresh(old(Contents()), symbol, preflight, open)
    {
      hide RetryDelay;
      states := states[symbol := states[symbol].(inFlight := true, pollTimer := None)];
      if preflight.Unavailable? {
        if preflight.retryable {
          PostponeRefresh(symbol, FromProvider(true));
        } else {
          Publish(symbol, Status(FromProvider(false)));
          TearDown(symbol);
        }
      } else if preflight.Throws? {
        PostponeRefresh(symbol, LimiterUnavailable);
      } else if !open {
        PostponeRefresh(symbol, MarketClosed);
      } else {
        refreshes := refreshes[KeyOf(symbol, states[symbol]) := AtLimiter];
      }
    }

    method Publish(symbol: string, message: Message)
      requires symbol in states
      modifies this
      ensures Contents() == Announce(old(Contents()), symbol, old(states[symbol]), message)
    {
      sent := sent + [Publication(KeyOf(symbol, states[symbol]), message)];
      states := states[symbol := states[symbol].(latest := Some(message))];
    }

    /** A symbol's fields are replaced and its subscribers are told. */
    method Put(symbol: string, state: SymbolState, message: Message)
      requires symbol in states && KeyOf(symbol, state) == KeyOf(symbol, states[symbol])
      modifies this
      ensures Contents() == Announce(old(Contents()), symbol, state, message)
    {
      states := states[symbol := state];
      Publish(symbol, message);
      assert old(states)[symbol := state][symbol := states[symbol]] == old(states)[symbol := states[symbol]];
    }

    /** What the end of a current refresh does: the request is over and the next poll is armed. */
    method EndRefresh(symbol: string)
      requires symbol in states
      modifies this
      ensures Contents() == Rest(old(Contents()), symbol)
    {
      var state := states[symbol];
      refreshes := refreshes - {KeyOf(symbol, state)};
      var timer := if state.pollTimer.Some? then state.pollTimer else Some(RetryDelay(config, state.retryAttempt));
      states := states[symbol := state.(inFlight := false, pollTimer := timer)];
    }

    method PostponeRefresh(symbol: string, reason: Reason)
      requires symbol in states
      modifies this
      ensures Contents() == Postpone(old(Contents()), symbol, reason)
    {
      hide RetryDelay, Rest;
      Put(symbol, states[symbol].(retryAttempt := states[symbol].retryAttempt + 1), Status(reason));
      EndRefresh(symbol);
    }

    method TearDown(symbol: string)
      requires symbol in states
      modifies this
      ensures Contents() == Teardown(old(Contents()), symbol)
    {
      subscriberGauge := subscriberGauge - |states[symbol].subscribers|;
      states := states - {symbol};
      order := Dropped(order, symbol);
      activeSymbolGauge := activeSymbolGauge - 1;
      if |states| == 0 { sessionTimer := false; }
    }

    method RemoveSubscriber(client: Client, symbol: string)
      modifies this
      ensures Contents() == Unsubscribe(old(Contents()), client, symbol)
    {
      if symbol !in states { return; }
      var state := states[symbol];
      if client in state.subscribers { subscriberGauge := subscriberGauge - 1; }
      states := states[symbol := state.(subscribers := state.subscribers - {client})];
      if |states[symbol].subscribers| == 0 { TearDown(symbol); }
    }

    method DisconnectClient(client: Client)
      modifies this
      ensures Contents() == Disconnect(old(Contents()), client)
    {
      hide Unsubscribe;
      var symbols := order;
      var i := 0;
      while i < |symbols|
        invariant i <= |symbols|
        invariant LeaveAll(Contents(), client, symbols[i..]) == old(Disconnect(Contents(), client))
      {
        assert symbols[i..][1..] == symbols[i + 1..];
        RemoveSubscriber(client, symbols[i]);
        i := i + 1;
      }
    }

    method DestroyAll()
      modifies this
      ensures Contents() == Destroy(old(Contents()))
    {
      hide Teardown;
      var symbols := order;
      var i := 0;
      while i < |symbols|
        invariant i <= |symbols|
        invariant TeardownAll(Contents(), symbols[i..]) == old(Destroy(Contents()))
      {
        assert symbols[i..][1..] == symbols[i + 1..];
        if symbols[i] in states { TearDown(symbols[i]); }
        i := i + 1;
      }
    }

    /** The deepest request among a symbol's subscribers. */
    method RequestedDepth(symbol: string) returns (depth: int)
      requires symbol in states
      ensures IsRequestedDepth(config, states[symbol].subscribers, depth)
    {
      var subscribers := states[symbol].subscribers;
      var left := subscribers.Keys;
      depth := 1;
      while left != {}
        invariant left <= subscribers.Keys && 1 <= depth
        invariant forall c :: c in subscribers && c !in left ==> subscribers[c] <= depth
        invariant depth == 1 || exists c :: c in subscribers && subscribers[c] == depth
        decreases |left|
      {
        var c :| c in left;
        left := left - {c};
        if subscribers[c] > depth { depth := subscribers[c]; }
      }
      if config.maxLevels < depth { depth := config.maxLevels; }
    }

    /** The limiter let the suspended refresh pass. */
    method OnGranted(key: Key, open: bool)
      requires key in refreshes && refreshes[key].AtLimiter?
      modifies this
      ensures exists depth :: DepthFor(old(Contents()), key, depth) && Contents() == Granted(old(Contents()), key, open, depth)
    {
      hide Postpone, IsRequestedDepth;
      if !IsCurrent(Contents(), key) {
        refreshes := refreshes - {key};
        assert DepthFor(old(Contents()), key, 0) && Contents() == Granted(old(Contents()), key, open, 0);
        return;
      }
      var depth := RequestedDepth(key.symbol);
      if !open { PostponeRefresh(key.symbol, MarketClosed); } else { refreshes := refreshes[key := AtProvider(depth)]; }
      assert DepthFor(old(Contents()), key, depth) && Contents() == Granted(old(Contents()), key, open, depth);
    }

    method AcceptSnapshot(symbol: string, snap: Snap, depth: int)
      requires symbol in states
      modifies this
      ensures Contents() == Accept(old(Contents()), symbol, snap, depth)
    {
      if states[symbol].session != snap.session {
        Put(symbol, states[symbol].(history := [], lastObservationAt := None, staleSent := false, session := snap.session), Status(NoData));
      }
      var state := states[symbol];
      var history := state.history + [snap];
      if |history| > config.maxHistory { history := history[|history| - config.maxHistory..]; }
      Put(symbol,
          state.(history := history, lastObservationAt := Some(snap.observedAt), staleSent := false, staleTimer := Some(state.generation)),
          SnapshotMessage(snap, depth));
    }

    /** The provider answered the suspended refresh. */
    method OnFetched(key: Key, answer: Answer)
      requires key in refreshes && refreshes[key].AtProvider?
      modifies this
      ensures exists depth :: DepthFor(old(Contents()), key, depth) && Contents() == Fetched(old(Contents()), key, answer, depth)
    {
      hide Postpone, IsRequestedDepth, Accept, Rest, Announce, Teardown;
      if !IsCurrent(Contents(), key) {
        refreshes := refreshes - {key};
        assert DepthFor(old(Contents()), key, 0) && Contents() == Fetched(old(Contents()), key, answer, 0);
        return;
      }
      var depth := RequestedDepth(key.symbol);
      Answered(key, answer, depth);
      assert DepthFor(old(Contents()), key, depth) && Contents() == Fetched(old(Contents()), key, answer, depth);
    }

    method Answered(key: Key, answer: Answer, depth: int)
      requires key in refreshes && IsCurrent(Contents(), key)
      modifies this
      ensures Contents() == Fetched(old(Contents()), key, answer, depth)
    {
      hide Postpone, Accept, Rest;
      if answer.NotAvailable? {
        if answer.retryable {
          PostponeRefresh(key.symbol, FromProvider(true));
        } else {
          Publish(key.symbol, Status(FromProvider(false)));
          TearDown(key.symbol);
          refreshes := refreshes - {key};
        }
      } else if !answer.inSession {
        PostponeRefresh(key.symbol, MarketClosed);
      } else {
        states := states[key.symbol := states[key.symbol].(retryAttempt := 0)];
        AcceptSnapshot(key.symbol, answer.snap, depth);
        assert key.symbol in states by { AcceptHolds(old(Contents()), key.symbol, answer.snap, depth); }
        EndRefresh(key.symbol);
      }
    }

    method OnThrew(key: Key)
      requires key in refreshes
      modifies this
      ensures Contents() == Threw(old(Contents()), key)
    {
      hide Postpone;
      if !IsCurrent(Contents(), key) {
        refreshes := refreshes - {key};
      } else {
        PostponeRefresh(key.symbol, if refreshes[key].AtLimiter? then LimiterUnavailable else ProviderError);
      }
    }

    method OnStaleTimer(symbol: string, now: int)
      requires symbol in states && states[symbol].staleTimer.Some?
      modifies this
      ensures Contents() == StaleFires(old(Contents()), symbol, now)
    {
      var generation := states[symbol].staleTimer.value;
      states := states[symbol := states[symbol].(staleTimer := None)];
      var state := states[symbol];
      if !IsCurrent(Contents(), Key(symbol, state.id, generation)) || state.staleSent { return; }
      if state.lastObservationAt.Some? && now - state.lastObservationAt.value >= config.staleMs {
        states := states[symbol := state.(staleSent := true)];
        Publish(symbol, Status(Stale));
      }
    }

    method ResetOne(symbol: string, session: string, outlook: Outlook)
      requires symbol in states
      modifies this
      ensures Contents() == ResetSymbol(old(Contents()), symbol, session, outlook)
    {
      hide BeginRefresh, Teardown;
      var state := states[symbol];
      states := states[symbol := SymbolState(state.id, state.generation + 1, state.subscribers, [], None, None, None, false, false, 0, session, None)];
      Publish(symbol, Status(NoData));
      assert states == old(states)[symbol := states[symbol]];
      if |states[symbol].subscribers| > 0 { Refresh(symbol, outlook.preflight, outlook.open); } else { TearDown(symbol); }
    }

    /** The session timer: every symbol starts over under a new generation. */
    method OnSessionBoundary(session: string, outlooks: map<string, Outlook>)
      requires sessionTimer
      modifies this
      ensures Contents() == SessionBoundary(old(Contents()), session, outlooks)
    {
      hide ResetSymbol;
      sessionTimer := false;
      var symbols := order;
      var i := 0;
      while i < |symbols|
        invariant i <= |symbols|
        invariant ResetAll(Contents(), symbols[i..], session, outlooks) ==
                  ResetAll(old(Contents()).(sessionTimer := false), symbols, session, outlooks)
      {
        assert symbols[i..][1..] == symbols[i + 1..];
        var outlook := if symbols[i] in outlooks then outlooks[symbols[i]] else Outlook(Proceed, false);
        if symbols[i] in states { ResetOne(symbols[i], session, outlook); }
        i := i + 1;
      }
      sessionTimer := |states| > 0;
    }
  }

  lemma AcceptHolds(svc: Service, symbol: string, snap: Snap, depth: int)
    requires symbol in svc.states
    ensures symbol in Accept(svc.(states := svc.states[symbol := svc.states[symbol].(retryAttempt := 0)]), symbol, snap, depth).states
  {
  }
}
