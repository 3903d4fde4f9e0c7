# LedgerX client core in Dafny

This project models the local logic of a Python client for the LedgerX
derivatives exchange. It has three parts, one module each, plus a shared
module.

- **`FeedClient`** (`feed_client.dfy`) is the full market-data feed client
  `LxWebsocketClient`. It receives decoded WebSocket frames and keeps
  in-memory tables:
  - the subscription set;
  - book tops and their local timestamps;
  - open positions;
  - account balances, converted from minor units;
  - tracked order fills;
  - the last heartbeat and the initial open-order count.

  `_on_message` dispatches on the frame's `type` to at most one handler.
- **`LegacyFeedClient`** (`legacy_client.dfy`) is the older feed client. It
  routes only `book_top` frames, and its reset empties subscriptions while
  keeping book tops.
- **`RestClient`** (`rest_client.dfy`) is the REST client `LxClient`:
  - how a request's URL and `Authorization` header are built;
  - the status-code rule of `_request`: return the body, exit, retry after
    3 seconds on 503, or cancel all orders and retry after `Retry-After` on
    429;
  - the retry counter, bounded by `_MAX_RETRIES = 3`;
  - the helpers that pick a book top out of the REST book states and a
    contract out of a listing.
- **`Wire`** (`wire.dfy`) is shared by the two feed clients. It holds the
  decoded frame `Msg` and the stored `Quote`. It also models Python's
  `defaultdict` indexing and the connection URL.

Each Python class becomes a Dafny `class` with the fields the modelled
methods use, updated in place by the same methods. The base class's fields
are not modelled, nor are the REST client's session, logger and retry
constant. Instead, `RestClient.LxClient` holds the exchange's pending
responses and an event log, as the paragraph on the environment below
explains. Each class's state also has a value form:
`FeedClient.Cache`, `LegacyFeedClient.LegacyCache` or `RestClient.Session`.
Every method ensures that the new state equals a function of the old one.
The lemmas state the client's properties about those functions.

The environment is given as parameters:
- **Clock.** `time.time()` and `time.time_ns()` come in as a `Clock` value.
- **Exchange.** The exchange is the sequence of responses it will give;
  each send consumes one.
- **Sends and sleeps.** The client's sends and sleeps are appended to an
  event log instead of being performed.

A few behaviours of the code are easy to miss, and the model keeps them:

- `_on_open` calls `_reset_data`, but that reset covers less than the
  whole session:
  - the full client's reset keeps the subscriptions, which are documented
    as kept on purpose (src/websocket_lx/client.py:17);
  - it also keeps the fills, the heartbeat and the open-order count, which
    are initialised only in `__init__` and never reassigned by
    `_reset_data`;
  - the legacy client's reset keeps the book tops, which only `__init__`
    creates (websocket_lx/client.py:15);
  - the socket is never given `on_open`
    (websocket_lx/websocket_manager.py:37-42), so neither reset runs on a
    reconnect.
- The full client's accessors index `defaultdict`s, so reading a missing key stores the
  default. In particular, `get_filled_size` of an untracked message id
  makes later `action_report`s for that id be recorded
  (`ReadingFilledSizeTracksIt`).
- `cancel_all_orders` goes through `_request`, so its success resets the
  retry counter. A run of 429s each followed by a successful cancel
  therefore never exhausts the retry budget (`CancelResetsRetries`).
- Only a success resets the counter. After the request that hit the limit
  raises, the next 503 on any request raises at once (`StickyRetryCounter`).
- `session.send` runs outside the `try` of `_request`
  (rest_lx/rest.py:52). A timeout during a send therefore escapes as an
  exception, and the `except Timeout` branch (rest_lx/rest.py:130-134) can
  never run. The model has no timeout retry: a failed send is `SendFailed`.

## Model

| member | source | states |
|---|---|---|
| `Wire.Kind` | src/websocket_lx/client.py:137-165 | a frame has no `type` exactly when it is untyped; its type is one of the six known kinds exactly when it is not unrecognised; each known `type` string identifies exactly its own kind of frame |
| `Wire.QuoteFromCents` | src/websocket_lx/client.py:123 | stored prices are the sent cent prices divided by 100; sizes are kept as sent |
| `Wire.Touch` | src/websocket_lx/client.py:59-77 | indexing a `defaultdict` adds the key, with the default when it was missing, and changes what no key reads as |
| `Wire.ConnectionUrl` | src/websocket_lx/client.py:35-39 | the URL carries `?token=<key>` after the endpoint exactly when the key is truthy, and is the bare endpoint otherwise |
| `FeedClient.ConvertUnits` | src/websocket_lx/client.py:97-104 | USD is divided by 100, BTC and CBTC by 10^8, ETH by 10^9; any other symbol gives `None` |
| `FeedClient.LxWebsocketClient.constructor` | src/websocket_lx/client.py:12-19 | a new client has no subscriptions and no fills, zero counters and empty caches |
| `FeedClient.LxWebsocketClient.ResetData` | src/websocket_lx/client.py:24-33 | the new state is the reset of the old one: only the four caches are emptied |
| `FeedClient.LxWebsocketClient.GetUrl` | src/websocket_lx/client.py:35-39 | endpoint, plus the key as token exactly when it is truthy; the bare endpoint otherwise |
| `FeedClient.LxWebsocketClient.Subscribe` | src/websocket_lx/client.py:41-44 | the id is added to the subscription set; nothing else changes |
| `FeedClient.LxWebsocketClient.SubscribeFills` | src/websocket_lx/client.py:46-49 | the message id is tracked with filled size 0; nothing else changes |
| `FeedClient.LxWebsocketClient.Unsubscribe` | src/websocket_lx/client.py:51-54 | removes a subscribed id; raises `KeyError` and changes nothing otherwise |
| `FeedClient.LxWebsocketClient.GetLastHeartbeatTimestamp` | src/websocket_lx/client.py:56-57 | returns the recorded heartbeat clock |
| `FeedClient.LxWebsocketClient.GetAccountBalances` | src/websocket_lx/client.py:79-83 | returns the balances table |
| `FeedClient.LxWebsocketClient.GetBookTop` | src/websocket_lx/client.py:59-61 | returns the stored book top or `[0,0,0,0]`, and stores the default for a missing contract |
| `FeedClient.LxWebsocketClient.GetBookTimestamp` | src/websocket_lx/client.py:63-65 | returns the stored timestamp or 0, and stores the default for a missing contract |
| `FeedClient.LxWebsocketClient.GetOpenPosition` | src/websocket_lx/client.py:67-71 | returns the stored position or `{}`, and stores the default for a missing contract |
| `FeedClient.LxWebsocketClient.GetFilledSize` | src/websocket_lx/client.py:73-77 | returns the stored filled size or 0, and stores the default for a missing id |
| `FeedClient.LxWebsocketClient.HandleStateManifest` | src/websocket_lx/client.py:85-87 | records the open-order count; nothing else changes |
| `FeedClient.LxWebsocketClient.HandleOpenPositionsUpdate` | src/websocket_lx/client.py:89-93 | the loop stores the entries in order, exactly as `ApplyPositions` does, and stops with `KeyError` at an entry without `contract_id` |
| `FeedClient.LxWebsocketClient.HandleCollateralBalance` | src/websocket_lx/client.py:106-113 | the loop over account keys leaves the balances updated with every converted account of the payload |
| `FeedClient.LxWebsocketClient.HandleBookTop` | src/websocket_lx/client.py:117-124 | stores the converted book top and the clock for the contract; nothing else changes |
| `FeedClient.LxWebsocketClient.HandleHeartbeat` | src/websocket_lx/client.py:126-128 | records the nanosecond clock; nothing else changes |
| `FeedClient.LxWebsocketClient.HandleFills` | src/websocket_lx/client.py:130-133 | records the filled size when the report has one; otherwise nothing changes |
| `FeedClient.LxWebsocketClient.OnMessage` | src/websocket_lx/client.py:135-165 | the new state and outcome are those of `Cache.Route`: at most one handler, book tops only when subscribed, fills only when tracked |
| `FeedClient.SubscribeIdempotent` | src/websocket_lx/client.py:41-44 | subscribe is a set insert: subscribing twice is subscribing once, and no other table changes |
| `FeedClient.UnsubscribeRemoves` | src/websocket_lx/client.py:51-54 | unsubscribe raises `KeyError` exactly when the id is not subscribed; on a raise nothing changes, otherwise only the id is removed |
| `FeedClient.SubscribeUnsubscribeRoundTrip` | src/websocket_lx/client.py:41-54 | unsubscribing undoes a subscribe of a new id |
| `FeedClient.BookTopIgnoredUnlessSubscribed` | src/websocket_lx/client.py:155-157 | a `book_top` for an unsubscribed contract changes no state |
| `FeedClient.BookTopSubscribedUpdates` | src/websocket_lx/client.py:117-124 | a subscribed `book_top` stores bid/100, bid size, ask/100, ask size and the clock for that contract only; every other contract and table is unchanged |
| `FeedClient.BookTimestampNeverDecreases` | src/websocket_lx/client.py:124 | with a clock that does not go back, no frame makes a contract's book timestamp decrease or pass the clock |
| `FeedClient.BookTopExample` | src/websocket_lx/client.py:123 | bid 10050 and ask 10100 cents are stored as 100.50 and 101.00 |
| `FeedClient.ApplyPositions` | src/websocket_lx/client.py:89-93 | storing the entries never drops a position already held, and ends normally or with `KeyError` |
| `FeedClient.PositionsUntouched` | src/websocket_lx/client.py:89-93 | a contract that no entry names keeps its position, or stays absent |
| `FeedClient.PositionsLastWins` | src/websocket_lx/client.py:89-93 | a contract's position is the last entry naming it, with its `contract_id` removed |
| `FeedClient.PositionsOutcome` | src/websocket_lx/client.py:90-92 | the update raises `KeyError` exactly when some entry has no `contract_id` |
| `FeedClient.PositionsStopAtMissing` | src/websocket_lx/client.py:90-93 | on `KeyError`, exactly the entries before the failing one have been stored |
| `FeedClient.CollateralReplacesAccounts` | src/websocket_lx/client.py:106-113 | each account in the payload is replaced, not merged, by its converted map; other accounts and all other tables are unchanged |
| `FeedClient.CollateralExample` | src/websocket_lx/client.py:97-113 | 12345 cents in an account read back as 123.45 dollars |
| `FeedClient.UnroutableFramesIgnored` | src/websocket_lx/client.py:135-140 | a frame without `type`, or of an unknown type, changes no state |
| `FeedClient.RouteFrame` | src/websocket_lx/client.py:142-165 | each kind changes only its own table; routing never changes the subscriptions, and only `open_positions_update` can raise |
| `FeedClient.ManifestAndHeartbeat` | src/websocket_lx/client.py:143-161 | `state_manifest` sets only the open-order count; `heartbeat` sets only the heartbeat to the nanosecond clock |
| `FeedClient.FillTracking` | src/websocket_lx/client.py:163-165 | `subscribe_fills` starts an id at 0; an `action_report` records its size only for a tracked id that carries `filled_size` |
| `FeedClient.ReadingFilledSizeTracksIt` | src/websocket_lx/client.py:73-77 | an untracked id's report is ignored, but once `get_filled_size` has read it, the next report is recorded |
| `FeedClient.ResetClearsCaches` | src/websocket_lx/client.py:24-33 | after reset the accessors return `[0,0,0,0]`, 0 and `{}`, and the balances are empty; subscriptions, fills, heartbeat and open-order count are kept; reset is idempotent |
| `LegacyFeedClient.LxWebsocketClient.constructor` | websocket_lx/client.py:12-16 | a new client has empty book tops, subscriptions and timestamps |
| `LegacyFeedClient.LxWebsocketClient.ResetData` | websocket_lx/client.py:21-24 | empties subscriptions and timestamps and keeps book tops |
| `LegacyFeedClient.LxWebsocketClient.GetUrl` | websocket_lx/client.py:26-30 | endpoint, plus the key as token exactly when it is truthy; the bare endpoint otherwise |
| `LegacyFeedClient.LxWebsocketClient.Subscribe` | websocket_lx/client.py:32-34 | the id is added; nothing else changes |
| `LegacyFeedClient.LxWebsocketClient.Unsubscribe` | websocket_lx/client.py:36-38 | removes a subscribed id; raises `KeyError` and changes nothing otherwise |
| `LegacyFeedClient.LxWebsocketClient.BookTop` | websocket_lx/client.py:40-41 | returns the stored book top or `[0,0,0,0]`, and stores the default for a missing contract |
| `LegacyFeedClient.LxWebsocketClient.HandleBookTop` | websocket_lx/client.py:43-50 | stores the converted book top and the clock for the contract |
| `LegacyFeedClient.LxWebsocketClient.OnMessage` | websocket_lx/client.py:52-61 | the new state is that of `LegacyCache.Route`: only a subscribed `book_top` changes anything |
| `LegacyFeedClient.ResetKeepsBookTops` | websocket_lx/client.py:15-24 | reset empties subscriptions and timestamps, keeps every book top, and is idempotent |
| `LegacyFeedClient.BookTopIgnoredAfterReset` | websocket_lx/client.py:59-61 | after a reset every frame is ignored until a contract is subscribed again |
| `LegacyFeedClient.SubscriptionSet` | websocket_lx/client.py:32-38 | subscribe is an idempotent insert; unsubscribe raises `KeyError` exactly for an absent id and otherwise removes it |
| `LegacyFeedClient.BookTopUpdates` | websocket_lx/client.py:43-50 | a subscribed `book_top` stores bid/100, sizes, ask/100 and the clock for that contract only; an unsubscribed one changes nothing |
| `LegacyFeedClient.OtherFramesIgnored` | websocket_lx/client.py:52-61 | every frame other than `book_top`, typed or not, changes nothing |
| `LegacyFeedClient.NeverUpdatedReadsZero` | websocket_lx/client.py:40-41 | a contract never updated reads as `[0,0,0,0]` |
| `RestClient.RequestUrl` | rest_lx/rest.py:45-48 | the URL is the trade base plus the path exactly when `use_trade_api`, otherwise the public base plus the path; both parts can be read back |
| `RestClient.SignRequest` | rest_lx/rest.py:39-42 | `Authorization: JWT <key>` is set exactly when the key is truthy; no other header changes |
| `RestClient.NextStep` | rest_lx/rest.py:65-128 | non-error statuses return the body; 503 backs off 3 seconds; 429 with a Retry-After cancels then retries, and without one raises; every other error status exits, or raises on a 400 body without `error` |
| `RestClient.Perform` | rest_lx/rest.py:44-141 | a request consumes responses and only appends to the log; with no response left it fails unchanged; a success leaves the counter at 0; a max-retries raise leaves it above 3 |
| `RestClient.RetryRequest` | rest_lx/rest.py:55-62 | a success leaves the counter at 0; a max-retries raise leaves it above 3 |
| `RestClient.LxClient.constructor` | rest_lx/rest.py:18-24 | a new client has retry counter 0 and an empty log |
| `RestClient.LxClient.Send` | rest_lx/rest.py:45-52 | the next response is consumed and the signed request is logged; with none left the send fails and nothing changes |
| `RestClient.LxClient.Request` | rest_lx/rest.py:44-141 | the reply and new state are those of `Perform` |
| `RestClient.LxClient.Retry` | rest_lx/rest.py:55-62 | the reply and new state are those of `RetryRequest` |
| `RestClient.LxClient.CancelAllOrders` | rest_lx/rest.py:326-334 | the cancel is `_request` of DELETE `orders` on the trade API |
| `RestClient.PerformConsumesInOrder` | rest_lx/rest.py:44-121 | a request, with all its retries and the cancels it triggers, consumes the exchange's responses from the front, in order |
| `RestClient.RetryConsumesInOrder` | rest_lx/rest.py:55-62 | a retry consumes the exchange's responses from the front, in order |
| `RestClient.SuccessResetsRetries` | rest_lx/rest.py:138-141 | a non-error response returns the body after one send and sets the counter to 0 |
| `RestClient.TerminalStatuses` | rest_lx/rest.py:71-128 | 400, 401, 404 and every other error status but 429 and 503 end after one send, with no retry or sleep and the counter unchanged |
| `RestClient.ServiceUnavailableRetries` | rest_lx/rest.py:117-121 | a 503 sleeps 3 seconds and re-issues the same request with the counter one higher, or raises past the limit |
| `RestClient.RateLimitCancelsFirst` | rest_lx/rest.py:97-114 | on a 429 the next thing sent is the cancel-all request |
| `RestClient.RetryBudget` | rest_lx/rest.py:55-62 | a run of 503s makes the request raise after exactly `4 - retries` sends, with the counter at 4 |
| `RestClient.StickyRetryCounter` | rest_lx/rest.py:55-60 | a counter left above the limit makes the next 503 raise at once |
| `RestClient.CancelResetsRetries` | rest_lx/rest.py:97-114 | after a successful cancel, the 429'd request is retried with the counter at 1, whatever it was before |
| `RestClient.Side` | rest_lx/rest.py:425-426 | every state kept by a side's filter is on that side |
| `RestClient.SideEmpty` | rest_lx/rest.py:425-426 | a side's filter is empty exactly when no state is on that side |
| `RestClient.SidesPartition` | rest_lx/rest.py:425-426 | the ask and bid filters together hold every book state exactly once |
| `RestClient.BookTopRest` | rest_lx/rest.py:421-436 | the bid is the first bid state and the ask the last ask state, with their sizes; `IndexError` exactly when either side is empty |
| `RestClient.BookTopRestIsBest` | rest_lx/rest.py:425-436 | when both sides are listed by falling price, the result is the highest bid and the lowest ask |
| `RestClient.GetSwapContractId` | rest_lx/rest.py:398-407 | `AssertionError` exactly for an asset other than CBTC or ETH, `IndexError` exactly for an empty listing, and the first contract's id exactly in every other case |
| `RestClient.GetClosestCall` | rest_lx/rest.py:409-419 | the same errors; the last contract's id and its strike price divided by 100 exactly in every other case |

## Left out

- `websocket_lx/websocket_manager.py` is not part of this model. It covers
  the thread, the lock, the socket and reconnection. Its `on_open` is never
  passed to the socket, so `_on_open` is modelled only as the reset it
  calls.
- `rest/rest.py` (an older REST wrapper) and the live-network tests are not
  modelled.
- JSON decoding of frames is not modelled: frames arrive already decoded as
  `Msg`. A missing fixed field (such as `bid` or `mid`) would raise
  `KeyError` in the source; the model's frames are well formed beyond the
  `type` field.
- Contract ids are restricted to integers, in positions and in `book_top`
  frames. The source accepts any JSON value there, and the model does not
  cover the other cases:
  - a string, float, bool or null position id is stored under that key;
  - such a `book_top` id only fails the membership test, except that a
    float such as `7.0` matches a subscribed `7`;
  - an unhashable id (a list or object) raises `TypeError`.
  - The `filled_size` field and each position's `contract_id` may still be
    absent, as in the source.
  - Position records are flat JSON objects.
- `FeedClient.ConvertUnits`: real division is exact, Python's `/` on floats
  rounds. The same holds for `Wire.QuoteFromCents` and
  `RestClient.GetClosestCall`.
- Logging, `time.sleep` and `exit(1)` have no effect in the model.
  - A sleep is a `Slept` event in the log.
  - `exit(1)` is the terminal reply `Exit(1)`.
  - Raised exceptions are `Failure` values.
- `RestClient.Perform`: the body returned on success is the raw body. The
  `response.json()` decoding and its failure are not modelled.
- `RestClient.Perform`: the request parameters (`params`/`json` keyword
  arguments) are not modelled. They are sent unchanged on every retry and
  affect no branch.
- `RestClient.Perform`: Python's recursion limit is not modelled. Every
  retry adds a `retry` and a `_request` stack frame (rest_lx/rest.py:62,
  114). A long run of 429s, each with a successful cancel, so ends in
  `RecursionError` in the source. The model's retry depth is bounded only
  by the responses still to come.
- `RestClient.NextStep`: a `Retry-After` header that is missing or not an
  integer is one case, `BadRetryAfter`; Python raises `KeyError` or
  `ValueError` respectively.
- The REST endpoint wrappers (`list_contracts`, `create_order`,
  `cancel_single_order` and the others) are not modelled. Each is one
  `_request` with a fixed verb, path and API flag. `cancel_all_orders` is
  modelled, because the retry logic calls it.
  - `get_swap_contract_id` and `get_closest_call` take the listing that
    `list_contracts` returns as an argument; the query filters that select
    it are the exchange's business.
  - `get_book_top_rest` takes the book states directly.
- `RestClient.GetSwapContractId`: `assert` is modelled as always on; under
  `python -O` it is stripped.
- Thread safety: the feed's tables are shared with the socket thread in the
  source, and the model is sequential.
- Aliasing: the source's accessors return the live inner dictionaries and
  lists, so a caller could mutate the cache through them. The model
  returns values.
- `FeedClient.LxWebsocketClient.HandleOpenPositionsUpdate`: the source
  deletes `contract_id` from the payload's own records. The model leaves
  the decoded frame as it was and stores the entry without the field.
