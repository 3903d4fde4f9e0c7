/**
 * The full feed client of the exchange's market-data WebSocket
 * (src/websocket_lx/client.py): the event router and the local state cache
 * it keeps. `LxWebsocketClient` holds the same tables as the Python class
 * and updates them in place; `Cache` is the value of those tables, and its
 * member functions say what each operation does to it. The lemmas at the
 * end state the router's properties in terms of `Cache`.
 */
module FeedClient {
  import opened Wire

  /** Open positions by contract id: each entry with its "contract_id" removed. */
  type Positions = map<int, map<string, Json>>

  /** Balances by account key, then by asset symbol, in major units. */
  type Balances = map<string, map<string, Option<real>>>

  /**
   * Converts an amount from cents, satoshi or gwei to dollars, BTC or ETH.
   * Any other symbol has no conversion (Python's implicit `None`).
   */
  function ConvertUnits(symbol: string, value: int): (r: Option<real>)
    ensures r.Some? <==> symbol in {"USD", "BTC", "CBTC", "ETH"}
    ensures symbol == "USD" ==> r.Some? && r.value * 100.0 == value as real
    ensures symbol == "BTC" || symbol == "CBTC" ==> r.Some? && r.value * 100000000.0 == value as real
    ensures symbol == "ETH" ==> r.Some? && r.value * 1000000000.0 == value as real
  {
    if symbol == "USD" then Some(value as real / 100.0)
    else if symbol == "BTC" || symbol == "CBTC" then Some(value as real / 100000000.0)
    else if symbol == "ETH" then Some(value as real / 1000000000.0)
    else None
  }

  /** One account's balances, every symbol converted. */
  function ConvertAccount(amounts: map<string, int>): map<string, Option<real>> {
    map symbol | symbol in amounts :: ConvertUnits(symbol, amounts[symbol])
  }

  /** Every account of a `collateral` payload, converted. */
  function ConvertCollateral(collateral: map<string, map<string, int>>): Balances {
    ConvertKeys(collateral, collateral.Keys)
  }

  /** The accounts `keys` of a `collateral` payload, converted. */
  function ConvertKeys(collateral: map<string, map<string, int>>, keys: set<string>): Balances
    requires keys <= collateral.Keys
  {
    map key | key in keys :: ConvertAccount(collateral[key])
  }

  /** Converting one more account is one more map update. */
  lemma ConvertKeysStep(balances: Balances, collateral: map<string, map<string, int>>, keys: set<string>, key: string)
    requires keys <= collateral.Keys && key in collateral
    ensures balances + ConvertKeys(collateral, keys + {key})
         == (balances + ConvertKeys(collateral, keys))[key := ConvertAccount(collateral[key])]
  {
  }

  /**
   * The positions table after storing the entries in order, each under its
   * contract id with that id removed. An entry without "contract_id" raises
   * `KeyError`; the entries before it stay applied.
   */
  function ApplyPositions(table: Positions, entries: seq<PositionEntry>): (r: (Positions, Outcome))
    ensures table.Keys <= r.0.Keys
    ensures r.1 == Done || r.1 == Raised(KeyError)
    decreases |entries|
  {
    if entries == [] then (table, Done)
    else if "contract_id" !in entries[0] then (table, Raised(KeyError))
    else
      var id := entries[0]["contract_id"].i;
      ApplyPositions(table[id := entries[0] - {"contract_id"}], entries[1..])
  }

  /** The client's state: every table the Python class keeps besides its key. */
  datatype Cache = Cache(
    initialOpenOrderCount: int,
    lastHeartbeatTimestamp: int,
    subscriptions: set<int>,
    fills: map<string, int>,
    orderbookTimestamps: map<int, real>,
    bookTops: map<int, Quote>,
    openPositions: Positions,
    accountBalances: Balances)
  {
    /** `_reset_data`: empties the four per-session caches and nothing else. */
    function ResetData(): Cache {
      this.(orderbookTimestamps := map[], bookTops := map[], openPositions := map[], accountBalances := map[])
    }

    function Subscribe(contractId: int): Cache {
      this.(subscriptions := subscriptions + {contractId})
    }

    /** `set.remove`: raises `KeyError` when the id is not subscribed. */
    function Unsubscribe(contractId: int): (Cache, Outcome) {
      if contractId in subscriptions then (this.(subscriptions := subscriptions - {contractId}), Done)
      else (this, Raised(KeyError))
    }

    function SubscribeFills(mid: string): Cache {
      this.(fills := fills[mid := 0])
    }

    // What the accessors return: the table's `defaultdict` default for a missing key.

    function GetBookTop(contractId: int): Quote {
      Lookup(bookTops, contractId, NO_QUOTE)
    }

    function GetBookTimestamp(contractId: int): real {
      Lookup(orderbookTimestamps, contractId, 0.0)
    }

    function GetOpenPosition(contractId: int): map<string, Json> {
      Lookup(openPositions, contractId, map[])
    }

    function GetFilledSize(mid: string): int {
      Lookup(fills, mid, 0)
    }

    // One function per handler.

    function ApplyStateManifest(openOrderCount: int): Cache {
      this.(initialOpenOrderCount := openOrderCount)
    }

    function ApplyOpenPositions(entries: seq<PositionEntry>): (Cache, Outcome) {
      var (table, outcome) := ApplyPositions(openPositions, entries);
      (this.(openPositions := table), outcome)
    }

    function ApplyCollateral(collateral: map<string, map<string, int>>): Cache {
      this.(accountBalances := accountBalances + ConvertCollateral(collateral))
    }

    function ApplyBookTop(contractId: int, bid: int, bidSize: int, ask: int, askSize: int, now: real): Cache {
      this.(bookTops := bookTops[contractId := QuoteFromCents(bid, bidSize, ask, askSize)],
            orderbookTimestamps := orderbookTimestamps[contractId := now])
    }

    function ApplyHeartbeat(nowNanos: int): Cache {
      this.(lastHeartbeatTimestamp := nowNanos)
    }

    function ApplyFill(mid: string, filledSize: Option<int>): Cache {
      if filledSize.Some? then this.(fills := fills[mid := filledSize.value]) else this
    }

    /**
     * `_on_message`: at most one handler, chosen by the frame's kind. A
     * `book_top` applies only to a subscribed contract and an
     * `action_report` only to a tracked message id.
     */
    function Route(m: Msg, clock: Clock): (Cache, Outcome) {
      match m
      case Untyped => (this, Done)
      case StateManifest(count) => (ApplyStateManifest(count), Done)
      case OpenPositionsUpdate(entries) => ApplyOpenPositions(entries)
      case CollateralBalanceUpdate(collateral) => (ApplyCollateral(collateral), Done)
      case BookTop(id, bid, bidSize, ask, askSize) =>
        if id in subscriptions then (ApplyBookTop(id, bid, bidSize, ask, askSize, clock.seconds), Done)
        else (this, Done)
      case Heartbeat => (ApplyHeartbeat(clock.nanos), Done)
      case ActionReport(mid, filledSize) =>
        if mid in fills then (ApplyFill(mid, filledSize), Done) else (this, Done)
      case Unrecognised(_) => (this, Done)
    }
  }

  /** The state `__init__` leaves: no subscriptions, no fills, counters at zero, caches empty. */
  function Initial(): Cache {
    Cache(0, 0, {}, map[], map[], map[], map[], map[])
  }

  class LxWebsocketClient {
    const apiKey: Option<string>
    var initialOpenOrderCount: int
    var lastHeartbeatTimestamp: int  // nanoseconds
    var subscriptions: set<int>
    var fills: map<string, int>
    var orderbookTimestamps: map<int, real>
    var bookTops: map<int, Quote>
    var openPositions: Positions
    var accountBalances: Balances

    function Snapshot(): Cache
      reads this
    {
      Cache(initialOpenOrderCount, lastHeartbeatTimestamp, subscriptions, fills,
            orderbookTimestamps, bookTops, openPositions, accountBalances)
    }

    constructor (apiKey: Option<string>)
      ensures this.apiKey == apiKey && Snapshot() == Initial()
    {
      this.apiKey := apiKey;
      initialOpenOrderCount := 0;
      lastHeartbeatTimestamp := 0;
      subscriptions := {};
      fills := map[];
      new;
      ResetData();
    }

    method ResetData()
      modifies this
      ensures Snapshot() == old(Snapshot()).ResetData()
    {
      orderbookTimestamps := map[];
      bookTops := map[];
      openPositions := map[];
      accountBalances := map[];
    }

    /** The connection URL: the endpoint, with the key as a `token` query exactly when it is truthy. */
    function GetUrl(): (url: string)
      ensures QueryToken(url) == if Truthy(apiKey) then Some(apiKey.value) else None
      ensures ENDPOINT <= url
      ensures !Truthy(apiKey) ==> url == ENDPOINT
    {
      ConnectionUrl(apiKey)
    }

    method Subscribe(contractId: int)
      modifies this
      ensures Snapshot() == old(Snapshot()).Subscribe(contractId)
    {
      subscriptions := subscriptions + {contractId};
    }

    method SubscribeFills(mid: string)
      modifies this
      ensures Snapshot() == old(Snapshot()).SubscribeFills(mid)
    {
      fills := fills[mid := 0];
    }

    method Unsubscribe(contractId: int) returns (outcome: Outcome)
      modifies this
      ensures (Snapshot(), outcome) == old(Snapshot()).Unsubscribe(contractId)
    {
      if contractId !in subscriptions {
        return Raised(KeyError);
      }
      subscriptions := subscriptions - {contractId};
      return Done;
    }

    /** `get_last_heartbeat_timestamp`: the nanosecond clock of the last heartbeat, 0 before any. */
    function GetLastHeartbeatTimestamp(): (t: int)
      reads this
      ensures t == Snapshot().lastHeartbeatTimestamp
    {
      lastHeartbeatTimestamp
    }

    /** `get_account_balances`: the whole balances table, by account key. */
    function GetAccountBalances(): (balances: Balances)
      reads this
      ensures balances == Snapshot().accountBalances
    {
      accountBalances
    }

    // The four accessors below index a `defaultdict`, which stores the default for a missing key.

    method GetBookTop(contractId: int) returns (quote: Quote)
      modifies this
      ensures quote == old(Snapshot()).GetBookTop(contractId)
      ensures Snapshot() == old(Snapshot()).(bookTops := Touch(old(bookTops), contractId, NO_QUOTE))
    {
      bookTops := Touch(bookTops, contractId, NO_QUOTE);
      quote := bookTops[contractId];
    }

    method GetBookTimestamp(contractId: int) returns (timestamp: real)
      modifies this
      ensures timestamp == old(Snapshot()).GetBookTimestamp(contractId)
      ensures Snapshot() == old(Snapshot()).(orderbookTimestamps := Touch(old(orderbookTimestamps), contractId, 0.0))
    {
      orderbookTimestamps := Touch(orderbookTimestamps, contractId, 0.0);
      timestamp := orderbookTimestamps[contractId];
    }

    method GetOpenPosition(contractId: int) returns (position: map<string, Json>)
      modifies this
      ensures position == old(Snapshot()).GetOpenPosition(contractId)
      ensures Snapshot() == old(Snapshot()).(openPositions := Touch(old(openPositions), contractId, map[]))
    {
      openPositions := Touch(openPositions, contractId, map[]);
      position := openPositions[contractId];
    }

    method GetFilledSize(mid: string) returns (filled: int)
      modifies this
      ensures filled == old(Snapshot()).GetFilledSize(mid)
      ensures Snapshot() == old(Snapshot()).(fills := Touch(old(fills), mid, 0))
    {
      fills := Touch(fills, mid, 0);
      filled := fills[mid];
    }

    method HandleStateManifest(openOrderCount: int)
      modifies this
      ensures Snapshot() == old(Snapshot()).ApplyStateManifest(openOrderCount)
    {
      initialOpenOrderCount := openOrderCount;
    }

    method HandleOpenPositionsUpdate(positions: seq<PositionEntry>) returns (outcome: Outcome)
      modifies this
      ensures (Snapshot(), outcome) == old(Snapshot()).ApplyOpenPositions(positions)
    {
      var i := 0;
      while i < |positions|
        invariant 0 <= i <= |positions|
        invariant Snapshot() == old(Snapshot()).(openPositions := openPositions)
        invariant ApplyPositions(openPositions, positions[i..]) == ApplyPositions(old(openPositions), positions)
      {
        var position := positions[i];
        if "contract_id" !in position {
          return Raised(KeyError);
        }
        var contractId := position["contract_id"].i;
        assert positions[i..][1..] == positions[i + 1..];
        openPositions := openPositions[contractId := position - {"contract_id"}];
        i := i + 1;
      }
      return Done;
    }

    method HandleCollateralBalance(collateral: map<string, map<string, int>>)
      modifies this
      ensures Snapshot() == old(Snapshot()).ApplyCollateral(collateral)
    {
      var keys := collateral.Keys;
      ghost var done: set<string> := {};
      while keys != {}
        invariant keys <= collateral.Keys && done == collateral.Keys - keys
        invariant accountBalances == old(accountBalances) + ConvertKeys(collateral, done)
        modifies this`accountBalances
        decreases keys
      {
        var key :| key in keys;
        ConvertKeysStep(old(accountBalances), collateral, done, key);
        accountBalances := accountBalances[key := ConvertAccount(collateral[key])];
        keys := keys - {key};
        done := done + {key};
      }
      assert done == collateral.Keys;
    }

    method HandleBookTop(contractId: int, bid: int, bidSize: int, ask: int, askSize: int, now: real)
      modifies this
      ensures Snapshot() == old(Snapshot()).ApplyBookTop(contractId, bid, bidSize, ask, askSize, now)
    {
      bookTops := bookTops[contractId := QuoteFromCents(bid, bidSize, ask, askSize)];
      orderbookTimestamps := orderbookTimestamps[contractId := now];
    }

    method HandleHeartbeat(nowNanos: int)
      modifies this
      ensures Snapshot() == old(Snapshot()).ApplyHeartbeat(nowNanos)
    {
      lastHeartbeatTimestamp := nowNanos;
    }

    method HandleFills(mid: string, filledSize: Option<int>)
      modifies this
      ensures Snapshot() == old(Snapshot()).ApplyFill(mid, filledSize)
    {
      if filledSize.Some? {
        fills := fills[mid := filledSize.value];
      }
    }

    method OnMessage(m: Msg, clock: Clock) returns (outcome: Outcome)
      modifies this
      ensures (Snapshot(), outcome) == old(Snapshot()).Route(m, clock)
    {
      outcome := Done;
      if m.Untyped? {
        return;
      }
      match m {
        case StateManifest(count) =>
          HandleStateManifest(count);
        case OpenPositionsUpdate(entries) =>
          outcome := HandleOpenPositionsUpdate(entries);
        case CollateralBalanceUpdate(collateral) =>
          HandleCollateralBalance(collateral);
        case BookTop(id, bid, bidSize, ask, askSize) =>
          if id in subscriptions {
            HandleBookTop(id, bid, bidSize, ask, askSize, clock.seconds);
          }
        case Heartbeat =>
          HandleHeartbeat(clock.nanos);
        case ActionReport(mid, filledSize) =>
          if mid in fills {
            HandleFills(mid, filledSize);
          }
        case Untyped =>
        case Unrecognised(_) =>
      }
    }
  }

  // ---------------------------------------------------------------------
  // Subscriptions

  /** Subscribing adds the id once; a second subscribe changes nothing. */
  lemma SubscribeIdempotent(c: Cache, contractId: int)
    ensures c.Subscribe(contractId).subscriptions == c.subscriptions + {contractId}
    ensures c.Subscribe(contractId).Subscribe(contractId) == c.Subscribe(contractId)
    ensures c.Subscribe(contractId) == c.(subscriptions := c.Subscribe(contractId).subscriptions)
  {
  }

  /** Unsubscribing removes a subscribed id, and raises, changing nothing, for any other. */
  lemma UnsubscribeRemoves(c: Cache, contractId: int)
    ensures var (r, outcome) := c.Unsubscribe(contractId);
      && (outcome == Raised(KeyError) <==> contractId !in c.subscriptions)
      && (outcome.Raised? ==> r == c)
      && (outcome == Done ==> r == c.(subscriptions := c.subscriptions - {contractId}))
  {
  }

  /** Unsubscribing undoes a subscribe of an id that was not subscribed. */
  lemma SubscribeUnsubscribeRoundTrip(c: Cache, contractId: int)
    requires contractId !in c.subscriptions
    ensures c.Subscribe(contractId).Unsubscribe(contractId) == (c, Done)
  {
  }

  // ---------------------------------------------------------------------
  // Book tops

  /** A `book_top` for a contract that is not subscribed changes nothing at all. */
  lemma BookTopIgnoredUnlessSubscribed(c: Cache, contractId: int, bid: int, bidSize: int, ask: int, askSize: int, clock: Clock)
    requires contractId !in c.subscriptions
    ensures c.Route(BookTop(contractId, bid, bidSize, ask, askSize), clock) == (c, Done)
  {
  }

  /**
   * A `book_top` for a subscribed contract stores its prices in dollars and
   * its sizes, and stamps it with the clock; no other contract's book top or
   * timestamp, and no other table, changes.
   */
  lemma BookTopSubscribedUpdates(c: Cache, contractId: int, bid: int, bidSize: int, ask: int, askSize: int, clock: Clock)
    requires contractId in c.subscriptions
    ensures var (r, outcome) := c.Route(BookTop(contractId, bid, bidSize, ask, askSize), clock);
      && outcome == Done
      && r.GetBookTop(contractId).bid * 100.0 == bid as real
      && r.GetBookTop(contractId).ask * 100.0 == ask as real
      && r.GetBookTop(contractId).bidSize == bidSize && r.GetBookTop(contractId).askSize == askSize
      && r.GetBookTimestamp(contractId) == clock.seconds
      && r.bookTops.Keys == c.bookTops.Keys + {contractId}
      && r.orderbookTimestamps.Keys == c.orderbookTimestamps.Keys + {contractId}
      && (forall k :: k != contractId ==> r.GetBookTop(k) == c.GetBookTop(k))
      && (forall k :: k != contractId ==> r.GetBookTimestamp(k) == c.GetBookTimestamp(k))
      && r == c.(bookTops := r.bookTops, orderbookTimestamps := r.orderbookTimestamps)
  {
  }

  /** With a clock that does not run backwards, a contract's timestamp never decreases. */
  lemma BookTimestampNeverDecreases(c: Cache, m: Msg, clock: Clock, contractId: int)
    requires c.GetBookTimestamp(contractId) <= clock.seconds
    ensures c.GetBookTimestamp(contractId) <= c.Route(m, clock).0.GetBookTimestamp(contractId) <= clock.seconds
  {
  }

  /** The worked example: bid 10050, ask 10100 cents while subscribed to 7 read back as 100.50 and 101.00. */
  lemma BookTopExample(c: Cache, clock: Clock)
    requires 7 in c.subscriptions
    ensures c.Route(BookTop(7, 10050, 3, 10100, 2), clock).0.GetBookTop(7) == Quote(100.50, 3, 101.00, 2)
  {
  }

  // ---------------------------------------------------------------------
  // Open positions

  /** A contract that no entry names keeps its position (present or absent) whatever happens. */
  lemma {:induction false} PositionsUntouched(table: Positions, entries: seq<PositionEntry>, contractId: int)
    requires forall j :: 0 <= j < |entries| && "contract_id" in entries[j] ==> entries[j]["contract_id"] != JInt(contractId)
    ensures var t := ApplyPositions(table, entries).0;
      (contractId in t <==> contractId in table) && (contractId in table ==> t[contractId] == table[contractId])
    decreases |entries|
  {
    if entries != [] && "contract_id" in entries[0] {
      var id := entries[0]["contract_id"].i;
      PositionsUntouched(table[id := entries[0] - {"contract_id"}], entries[1..], contractId);
    }
  }

  /**
   * The last entry naming a contract wins: when every entry up to entry `i`
   * carries a contract id and no later entry names the same one, the
   * contract's position is entry `i` without its "contract_id".
   */
  lemma {:induction false} PositionsLastWins(table: Positions, entries: seq<PositionEntry>, i: nat)
    requires i < |entries|
    requires forall j :: 0 <= j <= i ==> "contract_id" in entries[j]
    requires forall j :: i < j < |entries| && "contract_id" in entries[j] ==>
      entries[j]["contract_id"] != entries[i]["contract_id"]
    ensures var t := ApplyPositions(table, entries).0; var id := entries[i]["contract_id"].i;
      id in t && t[id] == entries[i] - {"contract_id"} && "contract_id" !in t[id]
    decreases |entries|
  {
    var id0 := entries[0]["contract_id"].i;
    var next := table[id0 := entries[0] - {"contract_id"}];
    if i == 0 {
      PositionsUntouched(next, entries[1..], id0);
    } else {
      PositionsLastWins(next, entries[1..], i - 1);
    }
  }

  /** The update raises `KeyError` exactly when some entry has no "contract_id". */
  lemma {:induction false} PositionsOutcome(table: Positions, entries: seq<PositionEntry>)
    ensures ApplyPositions(table, entries).1 ==
      if forall j :: 0 <= j < |entries| ==> "contract_id" in entries[j] then Done else Raised(KeyError)
    decreases |entries|
  {
    if entries != [] && "contract_id" in entries[0] {
      var id := entries[0]["contract_id"].i;
      PositionsOutcome(table[id := entries[0] - {"contract_id"}], entries[1..]);
      assert forall j :: 1 <= j < |entries| ==> entries[j] == entries[1..][j - 1];
    }
  }

  /** On `KeyError` at entry `f`, the entries before it have been stored and none after it. */
  lemma {:induction false} PositionsStopAtMissing(table: Positions, entries: seq<PositionEntry>, f: nat)
    requires f < |entries| && "contract_id" !in entries[f]
    requires forall j :: 0 <= j < f ==> "contract_id" in entries[j]
    ensures ApplyPositions(table, entries) == (ApplyPositions(table, entries[..f]).0, Raised(KeyError))
    decreases |entries|
  {
    if f > 0 {
      var id := entries[0]["contract_id"].i;
      var next := table[id := entries[0] - {"contract_id"}];
      PositionsStopAtMissing(next, entries[1..], f - 1);
      assert entries[..f][1..] == entries[1..][..f - 1];
    }
  }

  // ---------------------------------------------------------------------
  // Collateral balances

  /**
   * A `collateral_balance_update` replaces each account it names with that
   * account's converted amounts (no symbol of the old map survives), leaves
   * every other account as it was, and touches no other table.
   */
  lemma CollateralReplacesAccounts(c: Cache, collateral: map<string, map<string, int>>, clock: Clock, key: string)
    ensures var (r, outcome) := c.Route(CollateralBalanceUpdate(collateral), clock);
      && outcome == Done
      && r == c.(accountBalances := r.accountBalances)
      && r.accountBalances.Keys == c.accountBalances.Keys + collateral.Keys
      && (key in collateral ==>
            && r.accountBalances[key].Keys == collateral[key].Keys
            && forall symbol :: symbol in collateral[key] ==>
                 r.accountBalances[key][symbol] == ConvertUnits(symbol, collateral[key][symbol]))
      && (key !in collateral && key in c.accountBalances ==> r.accountBalances[key] == c.accountBalances[key])
  {
  }

  /** The worked example: 12345 cents in "acct1" reads back as 123.45 dollars. */
  lemma CollateralExample(clock: Clock)
    ensures Initial().Route(CollateralBalanceUpdate(map["acct1" := map["USD" := 12345]]), clock).0.accountBalances
      == map["acct1" := map["USD" := Some(123.45)]]
  {
    var amounts := map["USD" := 12345];
    assert ConvertAccount(amounts) == map["USD" := Some(123.45)];
    assert ConvertCollateral(map["acct1" := amounts]) == map["acct1" := map["USD" := Some(123.45)]];
  }

  // ---------------------------------------------------------------------
  // Dispatch

  /** A frame without a `type`, or of a kind the router does not know, changes no state. */
  lemma UnroutableFramesIgnored(c: Cache, m: Msg, clock: Clock)
    requires Kind(m).None? || Kind(m).value !in KNOWN_KINDS
    ensures c.Route(m, clock) == (c, Done)
  {
  }

  /**
   * Each kind touches only its own tables. In particular routing never
   * changes the subscription set, and only `open_positions_update` raises.
   */
  lemma RouteFrame(c: Cache, m: Msg, clock: Clock)
    ensures var (r, outcome) := c.Route(m, clock);
      && r.subscriptions == c.subscriptions
      && (outcome.Raised? ==> m.OpenPositionsUpdate?)
      && (!m.StateManifest? ==> r.initialOpenOrderCount == c.initialOpenOrderCount)
      && (!m.OpenPositionsUpdate? ==> r.openPositions == c.openPositions)
      && (!m.CollateralBalanceUpdate? ==> r.accountBalances == c.accountBalances)
      && (!m.BookTop? ==> r.bookTops == c.bookTops && r.orderbookTimestamps == c.orderbookTimestamps)
      && (!m.Heartbeat? ==> r.lastHeartbeatTimestamp == c.lastHeartbeatTimestamp)
      && (!m.ActionReport? ==> r.fills == c.fills)
  {
  }

  /** `state_manifest` records the open-order count; `heartbeat` records the nanosecond clock. */
  lemma ManifestAndHeartbeat(c: Cache, count: int, clock: Clock)
    ensures c.Route(StateManifest(count), clock) == (c.(initialOpenOrderCount := count), Done)
    ensures c.Route(Heartbeat, clock) == (c.(lastHeartbeatTimestamp := clock.nanos), Done)
  {
  }

  // ---------------------------------------------------------------------
  // Fill tracking

  /**
   * `subscribe_fills` starts a message id at 0; an `action_report` records
   * its filled size only for a tracked id that carries one.
   */
  lemma FillTracking(c: Cache, mid: string, filledSize: Option<int>, clock: Clock)
    ensures c.SubscribeFills(mid).GetFilledSize(mid) == 0
    ensures c.SubscribeFills(mid) == c.(fills := c.SubscribeFills(mid).fills)
    ensures var r := c.Route(ActionReport(mid, filledSize), clock).0;
      r == (if mid in c.fills && filledSize.Some? then c.(fills := c.fills[mid := filledSize.value]) else c)
  {
  }

  /**
   * Reading the filled size of an untracked id stores the default 0, so a
   * later `action_report` for it is recorded even without `subscribe_fills`.
   */
  lemma ReadingFilledSizeTracksIt(c: Cache, mid: string, filled: int, clock: Clock)
    requires mid !in c.fills
    ensures c.Route(ActionReport(mid, Some(filled)), clock).0 == c
    ensures c.(fills := Touch(c.fills, mid, 0)).Route(ActionReport(mid, Some(filled)), clock).0.GetFilledSize(mid) == filled
  {
  }

  // ---------------------------------------------------------------------
  // Reset

  /**
   * After `_reset_data` every accessor of the four caches returns its
   * default, while subscriptions, fills, the heartbeat and the open-order
   * count are kept. Resetting twice is resetting once.
   */
  lemma ResetClearsCaches(c: Cache, contractId: int)
    ensures var r := c.ResetData();
      && r.GetBookTop(contractId) == NO_QUOTE
      && r.GetBookTimestamp(contractId) == 0.0
      && r.GetOpenPosition(contractId) == map[]
      && r.accountBalances == map[]
      && r.subscriptions == c.subscriptions && r.fills == c.fills
      && r.lastHeartbeatTimestamp == c.lastHeartbeatTimestamp
      && r.initialOpenOrderCount == c.initialOpenOrderCount
      && r.ResetData() == r
  {
  }
}
