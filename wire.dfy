/**
 * What the two feed clients have in common: the decoded form of an inbound
 * frame, the book-top record they both store, the behaviour of Python's
 * `defaultdict` that they both rely on, and the connection URL.
 */
module Wire {

  datatype Option<+T> = None | Some(value: T)

  /** The Python exceptions the modelled code raises. */
  datatype Error = KeyError | IndexError | AssertionError

  datatype Result<+T> = Ok(value: T) | Err(error: Error)

  /** How a call that changes state ended: normally, or by raising. */
  datatype Outcome = Done | Raised(error: Error)

  /** A scalar JSON value, as carried by the position records that the router copies unread. */
  datatype Json = JNull | JBool(b: bool) | JInt(i: int) | JStr(s: string)

  /**
   * One entry of an `open_positions_update` payload: an open JSON object.
   * Its "contract_id", when present, is an integer.
   */
  type PositionEntry = e: map<string, Json> | "contract_id" in e ==> e["contract_id"].JInt? witness map[]

  /** The discriminators (`type` field) that the full router recognises. */
  const KNOWN_KINDS: set<string> :=
    {"state_manifest", "open_positions_update", "collateral_balance_update",
     "book_top", "heartbeat", "action_report"}

  type UnknownKind = k: string | k !in KNOWN_KINDS witness ""

  /**
   * A decoded inbound frame. `Untyped` is a frame without a `type` field;
   * `Unrecognised` is one whose `type` is none of the known kinds.
   * Amounts are in the exchange's minor units (cents, satoshi, gwei).
   */
  datatype Msg =
    | Untyped
    | StateManifest(openOrderCount: int)
    | OpenPositionsUpdate(positions: seq<PositionEntry>)
    | CollateralBalanceUpdate(collateral: map<string, map<string, int>>)
    | BookTop(contractId: int, bid: int, bidSize: int, ask: int, askSize: int)
    | Heartbeat
    | ActionReport(mid: string, filledSize: Option<int>)
    | Unrecognised(kind: UnknownKind)

  /** The frame's `type` field, if it has one. */
  function Kind(m: Msg): (k: Option<string>)
    ensures k.None? <==> m.Untyped?
    ensures k.Some? ==> (k.value in KNOWN_KINDS <==> !m.Unrecognised?)
    ensures k == Some("state_manifest") <==> m.StateManifest?
    ensures k == Some("open_positions_update") <==> m.OpenPositionsUpdate?
    ensures k == Some("collateral_balance_update") <==> m.CollateralBalanceUpdate?
    ensures k == Some("book_top") <==> m.BookTop?
    ensures k == Some("heartbeat") <==> m.Heartbeat?
    ensures k == Some("action_report") <==> m.ActionReport?
  {
    match m
    case Untyped => None
    case StateManifest(_) => Some("state_manifest")
    case OpenPositionsUpdate(_) => Some("open_positions_update")
    case CollateralBalanceUpdate(_) => Some("collateral_balance_update")
    case BookTop(_, _, _, _, _) => Some("book_top")
    case Heartbeat => Some("heartbeat")
    case ActionReport(_, _) => Some("action_report")
    case Unrecognised(kind) => Some(kind)
  }

  /** The local clock, read by the router: `time.time()` in seconds and `time.time_ns()`. */
  datatype Clock = Clock(seconds: real, nanos: int)

  /** A stored book top: `[bid, bid_size, ask, ask_size]` with prices in dollars. */
  datatype Quote = Quote(bid: real, bidSize: int, ask: real, askSize: int)

  /** The `[0, 0, 0, 0]` a contract's book top reads as before any update. */
  const NO_QUOTE := Quote(0.0, 0, 0.0, 0)

  /** The book top a `book_top` message stores: prices divided by 100, sizes as sent. */
  function QuoteFromCents(bid: int, bidSize: int, ask: int, askSize: int): (q: Quote)
    ensures q.bid * 100.0 == bid as real && q.ask * 100.0 == ask as real
    ensures q.bidSize == bidSize && q.askSize == askSize
  {
    Quote(bid as real / 100.0, bidSize, ask as real / 100.0, askSize)
  }

  /** Indexing a `defaultdict`: the stored value, or the factory's default. */
  function Lookup<K, V>(m: map<K, V>, k: K, default: V): V {
    if k in m then m[k] else default
  }

  /**
   * The table after indexing a `defaultdict` at `k`: a missing key is
   * inserted with the default. What any key reads as does not change.
   */
  function Touch<K(!new), V>(m: map<K, V>, k: K, default: V): (r: map<K, V>)
    ensures k in r && r.Keys == m.Keys + {k}
    ensures forall j :: Lookup(r, j, default) == Lookup(m, j, default)
  {
    if k in m then m else m[k := default]
  }

  /** The feed's WebSocket endpoint. */
  const ENDPOINT := "wss://api.ledgerx.com/ws"

  const TOKEN_QUERY := "?token="

  /** Python truthiness of an optional API key: present and not empty. */
  predicate Truthy(key: Option<string>) {
    key.Some? && key.value != ""
  }

  /** The token a connection URL carries: what follows `ENDPOINT + "?token="`. */
  function QueryToken(url: string): Option<string> {
    var n := |ENDPOINT| + |TOKEN_QUERY|;
    if n <= |url| && url[..|ENDPOINT|] == ENDPOINT && url[|ENDPOINT|..n] == TOKEN_QUERY
    then Some(url[n..])
    else None
  }

  /** The URL a client with this key connects to, given as the feed builds it. */
  function ConnectionUrl(apiKey: Option<string>): (url: string)
    ensures QueryToken(url) == if Truthy(apiKey) then Some(apiKey.value) else None
    ensures ENDPOINT <= url
    ensures !Truthy(apiKey) ==> url == ENDPOINT
  {
    if Truthy(apiKey) then
      var url := ENDPOINT + TOKEN_QUERY + apiKey.value;
      assert url[..|ENDPOINT|] == ENDPOINT;
      assert url[|ENDPOINT|..|ENDPOINT| + |TOKEN_QUERY|] == TOKEN_QUERY;
      assert url[|ENDPOINT| + |TOKEN_QUERY|..] == apiKey.value;
      url
    else
      ENDPOINT
  }
}
