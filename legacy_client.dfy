/**
 * The older, smaller feed client (websocket_lx/client.py). It routes
 * `book_top` frames only. Its reset empties the subscription set and the
 * book timestamps but keeps the book tops, which only the constructor
 * creates.
 */
module LegacyFeedClient {
  import opened Wire

  /** The legacy client's state. */
  datatype LegacyCache = LegacyCache(
    subscriptions: set<int>,
    orderbookTimestamps: map<int, real>,
    bookTops: map<int, Quote>)
  {
    /** `_reset_data`: a fresh subscription set and timestamp table; book tops are kept. */
    function ResetData(): LegacyCache {
      this.(subscriptions := {}, orderbookTimestamps := map[])
    }

    function Subscribe(contractId: int): LegacyCache {
      this.(subscriptions := subscriptions + {contractId})
    }

    /** `set.remove`: raises `KeyError` when the id is not subscribed. */
    function Unsubscribe(contractId: int): (LegacyCache, Outcome) {
      if contractId in subscriptions then (this.(subscriptions := subscriptions - {contractId}), Done)
      else (this, Raised(KeyError))
    }

    /** What `book_top(id)` returns: the `defaultdict` default `[0, 0, 0, 0]` for a missing contract. */
    function GetBookTop(contractId: int): Quote {
      Lookup(bookTops, contractId, NO_QUOTE)
    }

    function GetBookTimestamp(contractId: int): real {
      Lookup(orderbookTimestamps, contractId, 0.0)
    }

    function ApplyBookTop(contractId: int, bid: int, bidSize: int, ask: int, askSize: int, now: real): LegacyCache {
      this.(bookTops := bookTops[contractId := QuoteFromCents(bid, bidSize, ask, askSize)],
            orderbookTimestamps := orderbookTimestamps[contractId := now])
    }

    /** `_on_message`: a `book_top` for a subscribed contract is applied; every other frame is ignored. */
    function Route(m: Msg, now: real): LegacyCache {
      match m
      case BookTop(id, bid, bidSize, ask, askSize) =>
        if id in subscriptions then ApplyBookTop(id, bid, bidSize, ask, askSize, now) else this
      case _ => this
    }
  }

  /** The state `__init__` leaves: empty book tops, then a reset. */
  function Initial(): LegacyCache {
    LegacyCache({}, map[], map[])
  }

  class LxWebsocketClient {
    const apiKey: Option<string>
    var subscriptions: set<int>
    var orderbookTimestamps: map<int, real>
    var bookTops: map<int, Quote>

    function Snapshot(): LegacyCache
      reads this
    {
      LegacyCache(subscriptions, orderbookTimestamps, bookTops)
    }

    constructor (apiKey: Option<string>)
      ensures this.apiKey == apiKey && Snapshot() == Initial()
    {
      this.apiKey := apiKey;
      bookTops := map[];
      new;
      ResetData();
    }

    method ResetData()
      modifies this
      ensures Snapshot() == old(Snapshot()).ResetData()
    {
      subscriptions := {};
      orderbookTimestamps := map[];
    }

    /** The connection URL: the endpoint, with the key as a `token` query exactly when it is truthy. */
    function GetUrl(): (url: string)
      ensures QueryToken(url) == if Truthy(apiKey) then Some(apiKey.value) else None
      ensures ENDPOINT <= url
      ensures !Truthy(apiKey) ==> url == ENDPOINT
    {
      ConnectionUrl(apiKey)
    }

    method Subscribe(contractId: int)
      modifies this
      ensures Snapshot() == old(Snapshot()).Subscribe(contractId)
    {
      subscriptions := subscriptions + {contractId};
    }

    method Unsubscribe(contractId: int) returns (outcome: Outcome)
      modifies this
      ensures (Snapshot(), outcome) == old(Snapshot()).Unsubscribe(contractId)
    {
      if contractId !in subscriptions {
        return Raised(KeyError);
      }
      subscriptions := subscriptions - {contractId};
      return Done;
    }

    /** `book_top(id)` indexes a `defaultdict`, which stores the default for a missing contract. */
    method BookTop(contractId: int) returns (quote: Quote)
      modifies this
      ensures quote == old(Snapshot()).GetBookTop(contractId)
      ensures Snapshot() == old(Snapshot()).(bookTops := Touch(old(bookTops), contractId, NO_QUOTE))
    {
      bookTops := Touch(bookTops, contractId, NO_QUOTE);
      quote := bookTops[contractId];
    }

    method HandleBookTop(contractId: int, bid: int, bidSize: int, ask: int, askSize: int, now: real)
      modifies this
      ensures Snapshot() == old(Snapshot()).ApplyBookTop(contractId, bid, bidSize, ask, askSize, now)
    {
      bookTops := bookTops[contractId := QuoteFromCents(bid, bidSize, ask, askSize)];
      orderbookTimestamps := orderbookTimestamps[contractId := now];
    }

    method OnMessage(m: Msg, now: real)
      modifies this
      ensures Snapshot() == old(Snapshot()).Route(m, now)
    {
      if m.Untyped? {
        return;
      }
      if m.BookTop? && m.contractId in subscriptions {
        HandleBookTop(m.contractId, m.bid, m.bidSize, m.ask, m.askSize, now);
      }
    }
  }

  /** Reset empties subscriptions and timestamps and keeps every book top; twice is once. */
  lemma ResetKeepsBookTops(c: LegacyCache, contractId: int)
    ensures var r := c.ResetData();
      && r.subscriptions == {}
      && r.GetBookTimestamp(contractId) == 0.0
      && r.bookTops == c.bookTops
      && r.GetBookTop(contractId) == c.GetBookTop(contractId)
      && r.ResetData() == r
  {
  }

  /** After a reset every `book_top` is ignored until the contract is subscribed again. */
  lemma BookTopIgnoredAfterReset(c: LegacyCache, m: Msg, now: real)
    ensures c.ResetData().Route(m, now) == c.ResetData()
  {
  }

  /** Subscribing adds the id once; unsubscribing removes it, or raises and changes nothing. */
  lemma SubscriptionSet(c: LegacyCache, contractId: int)
    ensures c.Subscribe(contractId).subscriptions == c.subscriptions + {contractId}
    ensures c.Subscribe(contractId).Subscribe(contractId) == c.Subscribe(contractId)
    ensures var (r, outcome) := c.Unsubscribe(contractId);
      && (outcome == Raised(KeyError) <==> contractId !in c.subscriptions)
      && (outcome.Raised? ==> r == c)
      && (outcome == Done ==> r == c.(subscriptions := c.subscriptions - {contractId}))
  {
  }

  /**
   * A subscribed `book_top` stores prices in dollars, sizes as sent and the
   * clock; other contracts and the subscription set are untouched. An
   * unsubscribed one changes nothing.
   */
  lemma BookTopUpdates(c: LegacyCache, contractId: int, bid: int, bidSize: int, ask: int, askSize: int, now: real)
    ensures var r := c.Route(BookTop(contractId, bid, bidSize, ask, askSize), now);
      && (contractId !in c.subscriptions ==> r == c)
      && (contractId in c.subscriptions ==>
            && r.GetBookTop(contractId).bid * 100.0 == bid as real
            && r.GetBookTop(contractId).ask * 100.0 == ask as real
            && r.GetBookTop(contractId).bidSize == bidSize && r.GetBookTop(contractId).askSize == askSize
            && r.GetBookTimestamp(contractId) == now
            && r.subscriptions == c.subscriptions
            && (forall k :: k != contractId ==> r.GetBookTop(k) == c.GetBookTop(k))
            && (forall k :: k != contractId ==> r.GetBookTimestamp(k) == c.GetBookTimestamp(k)))
  {
  }

  /** Every frame other than a `book_top`, with a `type` or without, is ignored. */
  lemma OtherFramesIgnored(c: LegacyCache, m: Msg, now: real)
    requires Kind(m) != Some("book_top")
    ensures c.Route(m, now) == c
  {
  }

  /** A contract that no `book_top` has updated reads as `[0, 0, 0, 0]`. */
  lemma NeverUpdatedReadsZero(c: LegacyCache, contractId: int)
    requires contractId !in c.bookTops
    ensures c.GetBookTop(contractId) == Quote(0.0, 0, 0.0, 0)
    ensures Initial().GetBookTop(contractId) == Quote(0.0, 0, 0.0, 0)
  {
  }
}
