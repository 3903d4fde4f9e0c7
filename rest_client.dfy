/**
 * The exchange's REST client (rest_lx/rest.py): how a request's URL and
 * headers are built, what each response status leads to (return the body,
 * exit, retry, or cancel all orders and then retry), the retry counter that
 * bounds the retries, and the pure helpers that pick a book top and a
 * contract out of a listing.
 *
 * HTTP is abstract. The exchange is the sequence of responses it will give,
 * in order; each send consumes the next one, and a send with none left
 * fails. What the client sends and how long it sleeps is recorded in a log.
 */
module RestClient {
  import opened Wire

  const API_ENDPOINT := "https://api.ledgerx.com/"
  const TRADE_ENDPOINT := "https://trade.ledgerx.com/api/"
  const MAX_RETRIES := 3

  // ---------------------------------------------------------------------
  // Building a request

  /** The URL of a request: the trade API's base when `useTradeApi`, the public API's otherwise, then the path. */
  function RequestUrl(useTradeApi: bool, path: string): (url: string)
    ensures SplitUrl(url) == Some((useTradeApi, path))
  {
    var base := if useTradeApi then TRADE_ENDPOINT else API_ENDPOINT;
    var url := base + path;
    assert url[..|base|] == base && url[|base|..] == path;
    assert !useTradeApi ==> url[8] != TRADE_ENDPOINT[8];
    url
  }

  /** Which API a URL addresses and its path, if it is built on either base. */
  function SplitUrl(url: string): Option<(bool, string)> {
    if |TRADE_ENDPOINT| <= |url| && url[..|TRADE_ENDPOINT|] == TRADE_ENDPOINT then
      Some((true, url[|TRADE_ENDPOINT|..]))
    else if |API_ENDPOINT| <= |url| && url[..|API_ENDPOINT|] == API_ENDPOINT then
      Some((false, url[|API_ENDPOINT|..]))
    else
      None
  }

  /**
   * `_sign_request`: an `Authorization: JWT <key>` header is set exactly when
   * the key is truthy; no other header changes.
   */
  function SignRequest(headers: map<string, string>, apiKey: Option<string>): (signed: map<string, string>)
    ensures Truthy(apiKey) ==> "Authorization" in signed && signed["Authorization"] == "JWT " + apiKey.value
    ensures !Truthy(apiKey) ==> signed == headers
    ensures signed.Keys - {"Authorization"} == headers.Keys - {"Authorization"}
    ensures forall h :: h in headers && h != "Authorization" ==> h in signed && signed[h] == headers[h]
  {
    if Truthy(apiKey) then headers["Authorization" := "JWT " + apiKey.value] else headers
  }

  // ---------------------------------------------------------------------
  // Requests, responses and retries

  datatype Verb = Get | Post | Delete

  /** A request's method, path and API; its parameters are not modelled. */
  datatype Req = Req(verb: Verb, path: string, useTradeApi: bool)

  /** `cancel_all_orders`: DELETE `orders` on the trade API. */
  const CANCEL_ALL := Req(Delete, "orders", true)

  /**
   * A response: its status, its body, the `error` field of a JSON body (when
   * it has one) and the `Retry-After` header read as an integer (when it is
   * present and one).
   */
  datatype Response = Response(status: int, body: string, errorField: Option<string>, retryAfter: Option<int>)

  /** The statuses `raise_for_status` raises for. */
  predicate IsHttpError(status: int) {
    400 <= status < 600
  }

  /** How a request fails: `exit(1)`, or one of the exceptions it lets escape. */
  datatype Failure =
    | Exit(code: int)
    | MaxRetriesHit      // the exception `retry` raises
    | MissingErrorField  // a 400 whose body has no "error"
    | BadRetryAfter      // a 429 whose Retry-After header is missing or not an integer
    | NegativeSleep      // a 429 whose Retry-After is negative: time.sleep raises
    | SendFailed         // session.send raised (no response left)

  datatype Reply = Success(body: string) | Failed(failure: Failure)

  /** What the client does that the outside world sees. */
  datatype Event = Sent(verb: Verb, url: string, headers: map<string, string>) | Slept(seconds: int)

  /** The client's retry counter, the responses still to come and what has happened so far. */
  datatype Session = Session(retries: nat, pending: seq<Response>, log: seq<Event>)

  /** `after` follows `before`: no response given back, events only appended. */
  predicate Follows(before: Session, after: Session) {
    |after.pending| <= |before.pending| && before.log <= after.log
  }

  /** The responses still to come after `after` are what `before` still had, less some from the front. */
  predicate ConsumedInOrder(before: Session, after: Session) {
    |after.pending| <= |before.pending| && after.pending == before.pending[|before.pending| - |after.pending|..]
  }

  lemma ConsumedInOrderTrans(a: Session, b: Session, c: Session)
    requires ConsumedInOrder(a, b) && ConsumedInOrder(b, c)
    ensures ConsumedInOrder(a, c)
  {
    var i, j := |a.pending| - |b.pending|, |b.pending| - |c.pending|;
    assert c.pending == a.pending[i..][j..] == a.pending[i + j..];
  }

  /** The event a send of `req` records. */
  function SentEvent(apiKey: Option<string>, req: Req): Event {
    Sent(req.verb, RequestUrl(req.useTradeApi, req.path), SignRequest(map[], apiKey))
  }

  /** What `_request` does once a response is in, as its `try`/`except` decides by status. */
  datatype Next =
    | Finish(reply: Reply)           // return the body, exit or raise: nothing more is sent
    | Backoff(seconds: int)          // sleep, then retry
    | CancelThenRetry(seconds: int)  // cancel all orders, sleep, then retry

  /**
   * The status rule: a non-error status returns the body; 503 backs off for
   * 3 seconds; 429 with a usable Retry-After cancels all orders first; 400,
   * 401, 404 and every other error status end the request.
   */
  function NextStep(response: Response): (n: Next)
    ensures n == Finish(Success(response.body)) <==> !IsHttpError(response.status)
    ensures n == Backoff(3) <==> response.status == 503
    ensures n.CancelThenRetry? <==> response.status == 429 && response.retryAfter.Some?
    ensures n.CancelThenRetry? ==> Some(n.seconds) == response.retryAfter
    ensures IsHttpError(response.status) && response.status != 429 && response.status != 503 ==>
      n == Finish(if response.status == 400 && response.errorField.None? then Failed(MissingErrorField) else Failed(Exit(1)))
    ensures response.status == 429 && response.retryAfter.None? ==> n == Finish(Failed(BadRetryAfter))
  {
    if !IsHttpError(response.status) then Finish(Success(response.body))
    else if response.status == 400 then
      Finish(if response.errorField.Some? then Failed(Exit(1)) else Failed(MissingErrorField))
    else if response.status == 401 then Finish(Failed(Exit(1)))
    else if response.status == 404 then Finish(Failed(Exit(1)))
    else if response.status == 429 then
      if response.retryAfter.None? then Finish(Failed(BadRetryAfter)) else CancelThenRetry(response.retryAfter.value)
    else if response.status == 503 then Backoff(3)
    else Finish(Failed(Exit(1)))
  }

  /**
   * `_request`: send once, then follow `NextStep`. A success resets the
   * retry counter. The cancel that a 429 calls for is itself a request; if
   * it fails, its failure is the request's.
   */
  function Perform(apiKey: Option<string>, req: Req, s: Session): (r: (Reply, Session))
    ensures Follows(s, r.1)
    ensures s.pending != [] ==> |r.1.pending| < |s.pending|
    ensures s.pending == [] ==> r == (Failed(SendFailed), s)
    ensures r.0.Success? ==> r.1.retries == 0
    ensures r.0 == Failed(MaxRetriesHit) ==> r.1.retries > MAX_RETRIES
    decreases |s.pending|, 0
  {
    if s.pending == [] then (Failed(SendFailed), s)
    else
      var sent := s.(pending := s.pending[1..], log := s.log + [SentEvent(apiKey, req)]);
      match NextStep(s.pending[0])
      case Finish(reply) => (reply, if reply.Success? then sent.(retries := 0) else sent)
      case Backoff(seconds) => RetryRequest(apiKey, req, sent.(log := sent.log + [Slept(seconds)]))
      case CancelThenRetry(seconds) =>
        var (cancelled, after) := Perform(apiKey, CANCEL_ALL, sent);
        if cancelled.Failed? then (cancelled, after)
        else if seconds < 0 then (Failed(NegativeSleep), after)
        else RetryRequest(apiKey, req, after.(log := after.log + [Slept(seconds)]))
  }

  /** `retry`: count one more retry; raise past `MAX_RETRIES`, otherwise send the request again. */
  function RetryRequest(apiKey: Option<string>, req: Req, s: Session): (r: (Reply, Session))
    ensures Follows(s, r.1)
    ensures r.0.Success? ==> r.1.retries == 0
    ensures r.0 == Failed(MaxRetriesHit) ==> r.1.retries > MAX_RETRIES
    decreases |s.pending|, 1
  {
    var counted := s.(retries := s.retries + 1);
    if counted.retries > MAX_RETRIES then (Failed(MaxRetriesHit), counted)
    else Perform(apiKey, req, counted)
  }

  class LxClient {
    const apiKey: Option<string>
    var retries: nat
    var pending: seq<Response>  // the exchange: the responses it will give, in order
    var log: seq<Event>

    function Snapshot(): Session
      reads this
    {
      Session(retries, pending, log)
    }

    constructor (apiKey: Option<string>, exchange: seq<Response>)
      ensures this.apiKey == apiKey && Snapshot() == Session(0, exchange, [])
    {
      this.apiKey := apiKey;
      retries := 0;
      pending := exchange;
      log := [];
    }

    /** `session.send`: the next response, or a failure when the exchange has none left. */
    method Send(req: Req) returns (response: Option<Response>)
      modifies this
      ensures old(pending) == [] ==> response == None && Snapshot() == old(Snapshot())
      ensures old(pending) != [] ==>
        && response == Some(old(pending)[0])
        && Snapshot() == old(Snapshot()).(pending := old(pending)[1..], log := old(log) + [SentEvent(apiKey, req)])
    {
      if pending == [] {
        return None;
      }
      var url := RequestUrl(req.useTradeApi, req.path);
      var headers := SignRequest(map[], apiKey);
      response := Some(pending[0]);
      pending := pending[1..];
      log := log + [Sent(req.verb, url, headers)];
    }

    method Request(req: Req) returns (reply: Reply)
      modifies this
      ensures (reply, Snapshot()) == Perform(apiKey, req, old(Snapshot()))
      decreases |pending|, 0
    {
      var sent := Send(req);
      if sent.None? {
        return Failed(SendFailed);
      }
      match NextStep(sent.value) {
        case Finish(r) =>
          if r.Success? {
            retries := 0;
          }
          reply := r;
        case Backoff(seconds) =>
          log := log + [Slept(seconds)];
          reply := Retry(req);
        case CancelThenRetry(seconds) =>
          var cancelled := CancelAllOrders();
          if cancelled.Failed? {
            return cancelled;
          }
          if seconds < 0 {
            return Failed(NegativeSleep);
          }
          log := log + [Slept(seconds)];
          reply := Retry(req);
      }
    }

    method Retry(req: Req) returns (reply: Reply)
      modifies this
      ensures (reply, Snapshot()) == RetryRequest(apiKey, req, old(Snapshot()))
      decreases |pending|, 1
    {
      retries := retries + 1;
      if retries > MAX_RETRIES {
        return Failed(MaxRetriesHit);
      }
      reply := Request(req);
    }

    method CancelAllOrders() returns (reply: Reply)
      modifies this
      ensures (reply, Snapshot()) == Perform(apiKey, CANCEL_ALL, old(Snapshot()))
      decreases |pending|, 2
    {
      reply := Request(CANCEL_ALL);
    }
  }

  // ---------------------------------------------------------------------
  // Properties of the status handling

  /** A request, with all its retries and cancels, consumes the exchange's responses from the front, in order. */
  lemma {:induction false} PerformConsumesInOrder(apiKey: Option<string>, req: Req, s: Session)
    ensures ConsumedInOrder(s, Perform(apiKey, req, s).1)
    decreases |s.pending|, 0
  {
    if s.pending != [] {
      var sent := s.(pending := s.pending[1..], log := s.log + [SentEvent(apiKey, req)]);
      assert ConsumedInOrder(s, sent);
      match NextStep(s.pending[0])
      case Finish(reply) =>
      case Backoff(seconds) =>
        var slept := sent.(log := sent.log + [Slept(seconds)]);
        RetryConsumesInOrder(apiKey, req, slept);
        ConsumedInOrderTrans(s, slept, RetryRequest(apiKey, req, slept).1);
      case CancelThenRetry(seconds) =>
        var (cancelled, after) := Perform(apiKey, CANCEL_ALL, sent);
        PerformConsumesInOrder(apiKey, CANCEL_ALL, sent);
        ConsumedInOrderTrans(s, sent, after);
        if cancelled.Success? && seconds >= 0 {
          var slept := after.(log := after.log + [Slept(seconds)]);
          RetryConsumesInOrder(apiKey, req, slept);
          ConsumedInOrderTrans(s, slept, RetryRequest(apiKey, req, slept).1);
        }
    }
  }

  lemma {:induction false} RetryConsumesInOrder(apiKey: Option<string>, req: Req, s: Session)
    ensures ConsumedInOrder(s, RetryRequest(apiKey, req, s).1)
    decreases |s.pending|, 1
  {
    var counted := s.(retries := s.retries + 1);
    if counted.retries <= MAX_RETRIES {
      PerformConsumesInOrder(apiKey, req, counted);
    }
  }

  /** A non-error status returns the body after one send and resets the retry counter. */
  lemma SuccessResetsRetries(apiKey: Option<string>, req: Req, s: Session)
    requires s.pending != [] && !IsHttpError(s.pending[0].status)
    ensures Perform(apiKey, req, s) ==
      (Success(s.pending[0].body), Session(0, s.pending[1..], s.log + [SentEvent(apiKey, req)]))
  {
  }

  /**
   * 400, 401, 404 and every error status other than 429 and 503 end the
   * request after its one send: no retry, no sleep, the counter untouched.
   * All of them exit except a 400 whose body has no "error".
   */
  lemma TerminalStatuses(apiKey: Option<string>, req: Req, s: Session)
    requires s.pending != [] && IsHttpError(s.pending[0].status)
    requires s.pending[0].status != 429 && s.pending[0].status != 503
    ensures var (reply, after) := Perform(apiKey, req, s);
      && after == Session(s.retries, s.pending[1..], s.log + [SentEvent(apiKey, req)])
      && reply == (if s.pending[0].status == 400 && s.pending[0].errorField.None?
                   then Failed(MissingErrorField) else Failed(Exit(1)))
  {
  }

  /** A 503 sleeps 3 seconds and retries: the same request again, with the counter one higher. */
  lemma ServiceUnavailableRetries(apiKey: Option<string>, req: Req, s: Session)
    requires s.pending != [] && s.pending[0].status == 503
    ensures var next := Session(s.retries + 1, s.pending[1..], s.log + [SentEvent(apiKey, req), Slept(3)]);
      Perform(apiKey, req, s) ==
        if s.retries + 1 > MAX_RETRIES then (Failed(MaxRetriesHit), next) else Perform(apiKey, req, next)
  {
    var sent := s.(pending := s.pending[1..], log := s.log + [SentEvent(apiKey, req)]);
    var slept := sent.(log := sent.log + [Slept(3)]);
    assert Perform(apiKey, req, s) == RetryRequest(apiKey, req, slept);
    assert s.log + [SentEvent(apiKey, req)] + [Slept(3)] == s.log + [SentEvent(apiKey, req), Slept(3)];
  }

  /** A 429 with a usable Retry-After cancels all orders before anything else is sent. */
  lemma RateLimitCancelsFirst(apiKey: Option<string>, req: Req, s: Session)
    requires |s.pending| >= 2 && s.pending[0].status == 429 && s.pending[0].retryAfter.Some?
    ensures var log := Perform(apiKey, req, s).1.log;
      |log| >= |s.log| + 2 && log[..|s.log| + 2] == s.log + [SentEvent(apiKey, req), SentEvent(apiKey, CANCEL_ALL)]
  {
    var sent := s.(pending := s.pending[1..], log := s.log + [SentEvent(apiKey, req)]);
    var cancel := Perform(apiKey, CANCEL_ALL, sent);
    assert cancel.1.log[..|s.log| + 2] == s.log + [SentEvent(apiKey, req), SentEvent(apiKey, CANCEL_ALL)];
  }

  /**
   * The retry budget: from a counter at most `MAX_RETRIES`, a run of 503s
   * makes the request raise after exactly `MAX_RETRIES + 1 - retries` sends,
   * with the counter at `MAX_RETRIES + 1`.
   */
  lemma {:induction false} RetryBudget(apiKey: Option<string>, req: Req, s: Session)
    requires s.retries <= MAX_RETRIES
    requires |s.pending| >= MAX_RETRIES + 1 - s.retries
    requires forall i :: 0 <= i < MAX_RETRIES + 1 - s.retries ==> s.pending[i].status == 503
    ensures var (reply, after) := Perform(apiKey, req, s);
      && reply == Failed(MaxRetriesHit)
      && after.retries == MAX_RETRIES + 1
      && after.pending == s.pending[MAX_RETRIES + 1 - s.retries..]
    decreases MAX_RETRIES - s.retries
  {
    var next := Session(s.retries + 1, s.pending[1..], s.log + [SentEvent(apiKey, req), Slept(3)]);
    ServiceUnavailableRetries(apiKey, req, s);
    if s.retries < MAX_RETRIES {
      assert forall i :: 0 <= i < MAX_RETRIES + 1 - next.retries ==> next.pending[i] == s.pending[i + 1];
      RetryBudget(apiKey, req, next);
      assert next.pending[MAX_RETRIES + 1 - next.retries..] == s.pending[MAX_RETRIES + 1 - s.retries..];
    }
  }

  /**
   * Raising on the retry limit leaves the counter above it, and only a
   * success resets it: so the next 503, for any request, raises at once
   * without a retry.
   */
  lemma StickyRetryCounter(apiKey: Option<string>, req: Req, s: Session)
    requires s.retries > MAX_RETRIES && s.pending != [] && s.pending[0].status == 503
    ensures var (reply, after) := Perform(apiKey, req, s);
      reply == Failed(MaxRetriesHit) && after.pending == s.pending[1..]
  {
    ServiceUnavailableRetries(apiKey, req, s);
  }

  /**
   * The cancel that a 429 triggers goes through `_request` too, and its
   * success resets the counter: whatever the counter was, a 429 followed by
   * a successful cancel retries the request with the counter at 1. So rate
   * limits alone never exhaust the retry budget.
   */
  lemma CancelResetsRetries(apiKey: Option<string>, req: Req, s: Session)
    requires |s.pending| >= 2 && s.pending[0].status == 429
    requires s.pending[0].retryAfter.Some? && s.pending[0].retryAfter.value >= 0
    requires !IsHttpError(s.pending[1].status)
    ensures Perform(apiKey, req, s) ==
      Perform(apiKey, req, Session(1, s.pending[2..],
        s.log + [SentEvent(apiKey, req), SentEvent(apiKey, CANCEL_ALL), Slept(s.pending[0].retryAfter.value)]))
  {
    var sent := s.(pending := s.pending[1..], log := s.log + [SentEvent(apiKey, req)]);
    SuccessResetsRetries(apiKey, CANCEL_ALL, sent);
    assert s.pending[1..][1..] == s.pending[2..];
    assert s.log + [SentEvent(apiKey, req)] + [SentEvent(apiKey, CANCEL_ALL)] + [Slept(s.pending[0].retryAfter.value)]
        == s.log + [SentEvent(apiKey, req), SentEvent(apiKey, CANCEL_ALL), Slept(s.pending[0].retryAfter.value)];
  }

  // ---------------------------------------------------------------------
  // Book top from the REST book states

  /** One resting order of a contract's book state; prices in cents. */
  datatype BookState = BookState(isAsk: bool, price: int, size: int)

  /** `[bid, bid_size, ask, ask_size]`, in cents as the exchange sends them. */
  datatype RestTop = RestTop(bid: int, bidSize: int, ask: int, askSize: int)

  /** The order-preserving filter of the states on one side. */
  function Side(states: seq<BookState>, isAsk: bool): (r: seq<BookState>)
    ensures forall k :: 0 <= k < |r| ==> r[k].isAsk == isAsk
  {
    if states == [] then []
    else (if states[0].isAsk == isAsk then [states[0]] else []) + Side(states[1..], isAsk)
  }

  /** `states[i]` is the first state on this side. */
  predicate FirstOfSide(states: seq<BookState>, isAsk: bool, i: int) {
    0 <= i < |states| && states[i].isAsk == isAsk && forall k :: 0 <= k < i ==> states[k].isAsk != isAsk
  }

  /** `states[j]` is the last state on this side. */
  predicate LastOfSide(states: seq<BookState>, isAsk: bool, j: int) {
    0 <= j < |states| && states[j].isAsk == isAsk && forall k :: j < k < |states| ==> states[k].isAsk != isAsk
  }

  lemma {:induction false} SideEmpty(states: seq<BookState>, isAsk: bool)
    ensures |Side(states, isAsk)| == 0 <==> forall k :: 0 <= k < |states| ==> states[k].isAsk != isAsk
  {
    if states != [] {
      SideEmpty(states[1..], isAsk);
      assert forall k :: 1 <= k < |states| ==> states[k] == states[1..][k - 1];
    }
  }

  lemma {:induction false} SideFirst(states: seq<BookState>, isAsk: bool)
    requires |Side(states, isAsk)| > 0
    ensures exists i :: FirstOfSide(states, isAsk, i) && Side(states, isAsk)[0] == states[i]
  {
    if states[0].isAsk != isAsk {
      SideFirst(states[1..], isAsk);
      var i :| FirstOfSide(states[1..], isAsk, i) && Side(states[1..], isAsk)[0] == states[1..][i];
      assert FirstOfSide(states, isAsk, i + 1);
    } else {
      assert FirstOfSide(states, isAsk, 0);
    }
  }

  lemma {:induction false} SideLast(states: seq<BookState>, isAsk: bool)
    requires |Side(states, isAsk)| > 0
    ensures exists j :: LastOfSide(states, isAsk, j) && Side(states, isAsk)[|Side(states, isAsk)| - 1] == states[j]
  {
    var rest := Side(states[1..], isAsk);
    if |rest| > 0 {
      SideLast(states[1..], isAsk);
      var j :| LastOfSide(states[1..], isAsk, j) && rest[|rest| - 1] == states[1..][j];
      assert LastOfSide(states, isAsk, j + 1);
    } else {
      SideEmpty(states[1..], isAsk);
      assert forall k :: 1 <= k < |states| ==> states[k] == states[1..][k - 1];
      assert LastOfSide(states, isAsk, 0);
    }
  }

  /** The two filters split the states: together they hold every state exactly once. */
  lemma {:induction false} SidesPartition(states: seq<BookState>)
    ensures multiset(Side(states, true)) + multiset(Side(states, false)) == multiset(states)
  {
    if states != [] {
      SidesPartition(states[1..]);
      assert states == [states[0]] + states[1..];
    }
  }

  /**
   * `get_book_top_rest` on the book states: the first bid and the last ask,
   * each with its size; an `IndexError` when either side is empty.
   */
  function BookTopRest(states: seq<BookState>): (r: Result<RestTop>)
    ensures r.Err? <==> (forall k :: 0 <= k < |states| ==> states[k].isAsk) || (forall k :: 0 <= k < |states| ==> !states[k].isAsk)
    ensures r.Err? ==> r.error == IndexError
    ensures r.Ok? ==> exists i :: FirstOfSide(states, false, i) && r.value.bid == states[i].price && r.value.bidSize == states[i].size
    ensures r.Ok? ==> exists j :: LastOfSide(states, true, j) && r.value.ask == states[j].price && r.value.askSize == states[j].size
  {
    var asks := Side(states, true);
    var bids := Side(states, false);
    SideEmpty(states, true);
    SideEmpty(states, false);
    if |asks| == 0 || |bids| == 0 then Err(IndexError)
    else
      SideFirst(states, false);
      SideLast(states, true);
      Ok(RestTop(bids[0].price, bids[0].size, asks[|asks| - 1].price, asks[|asks| - 1].size))
  }

  /**
   * When the exchange lists bids by falling price and asks by falling price,
   * the picked bid is the highest bid and the picked ask the lowest ask.
   */
  lemma BookTopRestIsBest(states: seq<BookState>)
    requires forall i, j :: 0 <= i < j < |states| && !states[i].isAsk && !states[j].isAsk ==> states[i].price >= states[j].price
    requires forall i, j :: 0 <= i < j < |states| && states[i].isAsk && states[j].isAsk ==> states[i].price >= states[j].price
    ensures var r := BookTopRest(states);
      r.Ok? ==> forall k :: 0 <= k < |states| ==>
        (!states[k].isAsk ==> states[k].price <= r.value.bid) && (states[k].isAsk ==> r.value.ask <= states[k].price)
  {
    var r := BookTopRest(states);
    if r.Ok? {
      var i :| FirstOfSide(states, false, i) && r.value.bid == states[i].price;
      var j :| LastOfSide(states, true, j) && r.value.ask == states[j].price;
      forall k | 0 <= k < |states|
        ensures (!states[k].isAsk ==> states[k].price <= r.value.bid) && (states[k].isAsk ==> r.value.ask <= states[k].price)
      {
        if !states[k].isAsk && k != i { assert i < k; }
        if states[k].isAsk && k != j { assert k < j; }
      }
    }
  }

  // ---------------------------------------------------------------------
  // Contracts from a listing

  /** A contract of a listing, as far as the helpers read it. */
  datatype Contract = Contract(id: int, strikePrice: int)

  predicate SupportedAsset(asset: string) {
    asset == "CBTC" || asset == "ETH"
  }

  /**
   * `get_swap_contract_id`, given the exchange's listing of active next-day
   * swaps on the asset: the first contract's id.
   */
  function GetSwapContractId(asset: string, listing: seq<Contract>): (r: Result<int>)
    ensures r == Err(AssertionError) <==> !SupportedAsset(asset)
    ensures r == Err(IndexError) <==> SupportedAsset(asset) && listing == []
    ensures r.Ok? <==> SupportedAsset(asset) && listing != []
    ensures r.Ok? ==> r.value == listing[0].id
  {
    if !SupportedAsset(asset) then Err(AssertionError)
    else if listing == [] then Err(IndexError)
    else Ok(listing[0].id)
  }

  /**
   * `get_closest_call`, given the exchange's listing of active call options
   * on the asset: the last contract's id and its strike price in dollars.
   */
  function GetClosestCall(asset: string, listing: seq<Contract>): (r: Result<(int, real)>)
    ensures r == Err(AssertionError) <==> !SupportedAsset(asset)
    ensures r == Err(IndexError) <==> SupportedAsset(asset) && listing == []
    ensures r.Ok? <==> SupportedAsset(asset) && listing != []
    ensures r.Ok? ==> r.value.0 == listing[|listing| - 1].id
    ensures r.Ok? ==> r.value.1 * 100.0 == listing[|listing| - 1].strikePrice as real
  {
    if !SupportedAsset(asset) then Err(AssertionError)
    else if listing == [] then Err(IndexError)
    else
      var option := listing[|listing| - 1];
      Ok((option.id, option.strikePrice as real / 100.0))
  }
}
