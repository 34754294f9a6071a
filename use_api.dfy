/**
 * The client data layer: the `request` primitive that turns one HTTP exchange into either
 * a value or an error record, the four pollers built on it (portfolio, transactions, logs,
 * bots) and the manual-call helper. The network is a parameter `send` from the outgoing
 * request to the reply; each fetch is one atomic step.
 */
module UseApi {
  import opened Prelude
  import opened Text
  import opened ApiTypes

  /** `import.meta.env.VITE_API_URL || 'http://localhost:8000'`. */
  function ApiUrl(env: Option<string>): (url: string)
    ensures Truthy(env) ==> url == env.value
    ensures !Truthy(env) ==> url == "http://localhost:8000"
  {
    if Truthy(env) then env.value else "http://localhost:8000"
  }

  const SessionExpiredMessage := "Authentication session expired. Please refresh to log in via Cloudflare."
  const UnauthorizedMessage := "Unauthorized: You do not have access to this resource."
  const RequestFailedPrefix := "API request failed: "
  const UnknownErrorMessage := "Unknown error occurred"

  /** The error record held in an `error` slot. */
  datatype ApiError = ApiError(message: string, status: Option<int>, details: ErrorDetails)

  /**
   * The `details` of an error: absent, the error body that was read (the source keeps its
   * JSON serialisation), or the thrown value (the source keeps `String(err)`).
   */
  datatype ErrorDetails = NoDetails | BodyDetails(fields: ErrorFields) | FaultDetails(fault: Fault)

  /** The two properties `request` reads from an error body: `message` and `error`. */
  datatype ErrorFields = ErrorFields(message: Option<string>, error: Option<string>)

  /**
   * What `response.json()` yields: a parsed value (with its two error properties), the JSON
   * literal `null` (with the TypeError the engine throws when a property of it is read), or a
   * throw.
   */
  datatype Body<T> = Json(value: T, fields: ErrorFields) | Null(readFault: Fault)
                   | Unparsable(fault: Fault)

  datatype Response<T> = Response(status: int, statusText: string, contentType: Option<string>,
                                  body: Body<T>)

  /** What `await fetch(...)` yields: a response, or a transport fault thrown out of `fetch`. */
  datatype Reply<T> = Received(response: Response<T>) | Failed(fault: Fault)

  /** A successful result: `{}` for 204 No Content, otherwise the parsed body. */
  datatype Data<T> = NoContent | Payload(value: T)

  /** What one `request` call returns and what it passes to `setError`. */
  datatype Outcome<T> = Outcome(data: Option<Data<T>>, error: Option<ApiError>)

  /** One query parameter, in the order it is appended to `URLSearchParams`. */
  datatype Param = Param(key: string, value: string)

  /** The request `fetch` is given. A missing `method` is `fetch`'s default, GET. */
  datatype Outgoing = Outgoing(url: string, query: seq<Param>, verb: Option<string>,
                               contentType: string, body: Option<string>,
                               includeCredentials: bool)

  /** `response.ok`. */
  predicate Ok(status: int)
  {
    200 <= status <= 299
  }

  /** `contentType && contentType.includes('text/html')`. */
  predicate IsHtml(contentType: Option<string>)
  {
    Truthy(contentType) && Contains(contentType.value, "text/html")
  }

  /**
   * `await response.json().catch(() => ({ error: response.statusText }))`, or the fault thrown
   * when the next line reads `errorData.message` of a `null` body.
   */
  function ErrorBodyOf<T>(r: Response<T>): Attempt<ErrorFields>
  {
    match r.body
    case Json(_, fields) => Read(fields)
    case Null(f) => Throws(f)
    case Unparsable(_) => Read(ErrorFields(None, Some(r.statusText)))
  }

  /** An error body that was read, or the fault its reading threw. */
  datatype Attempt<T> = Read(value: T) | Throws(fault: Fault)

  /** `errorData.message || errorData.error || response.statusText`. */
  function ServerErrorMessage(fields: ErrorFields, statusText: string): (m: string)
    ensures Truthy(fields.message) ==> m == fields.message.value
    ensures !Truthy(fields.message) && Truthy(fields.error) ==> m == fields.error.value
    ensures !Truthy(fields.message) && !Truthy(fields.error) ==> m == statusText
  {
    if Truthy(fields.message) then fields.message.value
    else if Truthy(fields.error) then fields.error.value
    else statusText
  }

  /** The error recorded when something is thrown inside `request`. */
  function FaultError(f: Fault): ApiError
  {
    ApiError(RequestFailedPrefix + MessageOr(f, UnknownErrorMessage), None, FaultDetails(f))
  }

  /**
   * The body of `request` after `fetch` settles: HTML first, then 401/403, then other
   * non-2xx statuses, then 204, then the parsed body; anything thrown is caught.
   */
  function Classify<T>(reply: Reply<T>): (o: Outcome<T>)
    // request never throws and never both returns a value and records an error
    ensures o.data.Some? ==> o.error.None?
    // it returns null with the error cleared exactly for a 2xx body that is JSON `null`
    ensures o.data.None? && o.error.None? <==>
              reply.Received? && !IsHtml(reply.response.contentType) && Ok(reply.response.status)
              && reply.response.status != 204 && reply.response.body.Null?
    // a value comes back only from a 2xx, non-HTML response
    ensures o.data.Some? ==> reply.Received? && Ok(reply.response.status)
                             && !IsHtml(reply.response.contentType)
    // HTML is checked before any status, so it applies to a 200 as well
    ensures reply.Received? && IsHtml(reply.response.contentType) ==>
              o == Outcome(None, Some(ApiError(SessionExpiredMessage, Some(401), NoDetails)))
    // 401 and 403 keep their status and never look at the body
    ensures reply.Received? && !IsHtml(reply.response.contentType)
            && reply.response.status in {401, 403} ==>
              o == Outcome(None, Some(ApiError(UnauthorizedMessage, Some(reply.response.status), NoDetails)))
    // any other failure status keeps the status code and reports the body's message; a null
    // body throws on the property read, and that fault is caught
    ensures reply.Received? && !IsHtml(reply.response.contentType)
            && !Ok(reply.response.status) && reply.response.status !in {401, 403} ==>
              match ErrorBodyOf(reply.response)
              case Read(fields) =>
                o == Outcome(None, Some(ApiError(ServerErrorMessage(fields, reply.response.statusText),
                                                 Some(reply.response.status), BodyDetails(fields))))
              case Throws(f) => o == Outcome(None, Some(FaultError(f)))
    // 204 is an empty object and clears the error
    ensures reply.Received? && !IsHtml(reply.response.contentType) && reply.response.status == 204 ==>
              o == Outcome(Some(NoContent), None)
    // any other 2xx returns the parsed body (null as null), or the parse failure as a caught fault
    ensures reply.Received? && !IsHtml(reply.response.contentType)
            && Ok(reply.response.status) && reply.response.status != 204 ==>
              match reply.response.body
              case Json(v, _) => o == Outcome(Some(Payload(v)), None)
              case Null(_) => o == Outcome(None, None)
              case Unparsable(f) => o == Outcome(None, Some(FaultError(f)))
    // a transport fault is caught and has no status
    ensures reply.Failed? ==> o == Outcome(None, Some(FaultError(reply.fault)))
  {
    match reply
    case Failed(f) => Outcome(None, Some(FaultError(f)))
    case Received(r) =>
      if IsHtml(r.contentType) then
        Outcome(None, Some(ApiError(SessionExpiredMessage, Some(401), NoDetails)))
      else if !Ok(r.status) then
        if r.status == 401 || r.status == 403 then
          Outcome(None, Some(ApiError(UnauthorizedMessage, Some(r.status), NoDetails)))
        else
          match ErrorBodyOf(r)
          case Read(fields) =>
            Outcome(None, Some(ApiError(ServerErrorMessage(fields, r.statusText), Some(r.status),
                                        BodyDetails(fields))))
          case Throws(f) => Outcome(None, Some(FaultError(f)))
      else if r.status == 204 then
        Outcome(Some(NoContent), None)
      else
        match r.body
        case Json(v, _) => Outcome(Some(Payload(v)), None)
        case Null(_) => Outcome(None, None)
        case Unparsable(f) => Outcome(None, Some(FaultError(f)))
  }

  /** The status of a recorded error is the response's own status, or 401 for an HTML page. */
  lemma ErrorStatusOrigin<T>(reply: Reply<T>)
    ensures var o := Classify(reply);
            o.error.Some? && o.error.value.status.Some? ==>
              reply.Received? &&
              (o.error.value.status.value == reply.response.status ||
               (o.error.value.status.value == 401 && IsHtml(reply.response.contentType)))
  {
  }

  /** A 401/403 outcome is the same whatever the body holds: the body is never read. */
  lemma UnauthorizedIgnoresBody<T>(r: Response<T>, other: Body<T>)
    requires !IsHtml(r.contentType) && r.status in {401, 403}
    ensures Classify(Received(r)) == Classify(Received(r.(body := other)))
  {
  }

  /** An HTML login page served with 200 and a genuine 401 are reported with the same status. */
  lemma HtmlPageReadsAsUnauthorized<T>(page: Response<T>, denied: Response<T>)
    requires page.status == 200 && IsHtml(page.contentType)
    requires denied.status == 401 && !IsHtml(denied.contentType)
    ensures Classify(Received(page)).error.value.status == Some(401)
    ensures Classify(Received(denied)).error.value.status == Some(401)
    ensures Classify(Received(page)).data.None? && Classify(Received(denied)).data.None?
  {
  }

  /** The request `request(endpoint, options)` hands to `fetch`. */
  function OutgoingFor(baseUrl: string, path: string, query: seq<Param>, verb: Option<string>,
                       body: Option<string>): Outgoing
  {
    Outgoing(baseUrl + path, query, verb, "application/json", body, true)
  }

  /** The first value stored under `key` (`URLSearchParams.get`). */
  function Lookup(q: seq<Param>, key: string): (r: Option<string>)
    ensures r.Some? <==> key in Keys(q)
    decreases |q|
  {
    if q == [] then None
    else
      assert Keys(q) == [q[0].key] + Keys(q[1..]);
      if q[0].key == key then Some(q[0].value) else Lookup(q[1..], key)
  }

  /** The parameter names, in order. */
  function Keys(q: seq<Param>): seq<string>
  {
    seq(|q|, i requires 0 <= i < |q| => q[i].key)
  }

  /** `if (x) params.append(key, x)`. */
  function AppendIf(q: seq<Param>, key: string, x: Option<string>): seq<Param>
  {
    if Truthy(x) then q + [Param(key, x.value)] else q
  }

  /** Appending under one key does not disturb the first value of another. */
  lemma {:induction false} LookupAppend(q: seq<Param>, p: Param, key: string)
    ensures Lookup(q + [p], key) == if key in Keys(q) then Lookup(q, key)
                                    else if p.key == key then Some(p.value) else None
    decreases |q|
  {
    if q == [] {
      assert [] + [p] == [p];
    } else {
      assert (q + [p])[1..] == q[1..] + [p];
      assert Keys(q) == [q[0].key] + Keys(q[1..]);
      if q[0].key != key {
        LookupAppend(q[1..], p, key);
      }
    }
  }

  /** A conditional append adds its key at the end and is seen only under its own key. */
  lemma LookupAppendIf(q: seq<Param>, k: string, x: Option<string>, key: string)
    ensures Keys(AppendIf(q, k, x)) == Keys(q) + (if Truthy(x) then [k] else [])
    ensures Lookup(AppendIf(q, k, x), key) ==
            if key in Keys(q) then Lookup(q, key)
            else if Truthy(x) && k == key then x else None
  {
    if Truthy(x) {
      LookupAppend(q, Param(k, x.value), key);
      assert Keys(q + [Param(k, x.value)]) == Keys(q) + [k];
    }
  }

  /** The query of `/api/transactions`: page, limit, then bot and search when non-empty. */
  function TransactionsQuery(page: int, limit: int, bot: Option<string>, search: Option<string>)
    : (q: seq<Param>)
    ensures Keys(q) == ["page", "limit"] + (if Truthy(bot) then ["bot"] else [])
                                         + (if Truthy(search) then ["search"] else [])
    ensures Lookup(q, "page") == Some(IntToString(page))
    ensures Lookup(q, "limit") == Some(IntToString(limit))
    ensures Lookup(q, "bot") == (if Truthy(bot) then bot else None)
    ensures Lookup(q, "search") == (if Truthy(search) then search else None)
  {
    var base := [Param("page", IntToString(page)), Param("limit", IntToString(limit))];
    var q1 := AppendIf(base, "bot", bot);
    var q := AppendIf(q1, "search", search);
    assert Keys(base) == ["page", "limit"];
    LookupAppendIf(base, "bot", bot, "page");
    LookupAppendIf(base, "bot", bot, "limit");
    LookupAppendIf(base, "bot", bot, "bot");
    LookupAppendIf(base, "bot", bot, "search");
    LookupAppendIf(q1, "search", search, "page");
    LookupAppendIf(q1, "search", search, "limit");
    LookupAppendIf(q1, "search", search, "bot");
    LookupAppendIf(q1, "search", search, "search");
    q
  }

  /** The page and limit of a transactions query read back as the numbers that were asked for. */
  lemma TransactionsQueryDecodes(page: int, limit: int, bot: Option<string>, search: Option<string>)
    ensures var q := TransactionsQuery(page, limit, bot, search);
            Lookup(q, "page").Some? && ParseInt(Lookup(q, "page").value) == page &&
            Lookup(q, "limit").Some? && ParseInt(Lookup(q, "limit").value) == limit
  {
    IntToStringRoundTrip(page);
    IntToStringRoundTrip(limit);
  }

  /** `limit` when `fetch` is called without one. */
  const DefaultLogLimit := 100

  /** The query of `/api/logs`: limit, then bot, level and search when non-empty. */
  function LogsQuery(bot: Option<string>, level: Option<string>, search: Option<string>, limit: int)
    : (q: seq<Param>)
    ensures Keys(q) == ["limit"] + (if Truthy(bot) then ["bot"] else [])
                                 + (if Truthy(level) then ["level"] else [])
                                 + (if Truthy(search) then ["search"] else [])
    ensures Lookup(q, "limit") == Some(IntToString(limit))
    ensures Lookup(q, "bot") == (if Truthy(bot) then bot else None)
    ensures Lookup(q, "level") == (if Truthy(level) then level else None)
    ensures Lookup(q, "search") == (if Truthy(search) then search else None)
  {
    var base := [Param("limit", IntToString(limit))];
    var q1 := AppendIf(base, "bot", bot);
    var q2 := AppendIf(q1, "level", level);
    var q := AppendIf(q2, "search", search);
    assert Keys(base) == ["limit"];
    LookupAppendIf(base, "bot", bot, "limit");
    LookupAppendIf(base, "bot", bot, "bot");
    LookupAppendIf(base, "bot", bot, "level");
    LookupAppendIf(base, "bot", bot, "search");
    LookupAppendIf(q1, "level", level, "limit");
    LookupAppendIf(q1, "level", level, "bot");
    LookupAppendIf(q1, "level", level, "level");
    LookupAppendIf(q1, "level", level, "search");
    LookupAppendIf(q2, "search", search, "limit");
    LookupAppendIf(q2, "search", search, "bot");
    LookupAppendIf(q2, "search", search, "level");
    LookupAppendIf(q2, "search", search, "search");
    q
  }

  /** The limit appears first and reads back as the requested number. */
  lemma LogsQueryLimitFirst(bot: Option<string>, level: Option<string>, search: Option<string>)
    ensures var q := LogsQuery(bot, level, search, DefaultLogLimit);
            Lookup(q, "limit") == Some("100") && ParseInt(Lookup(q, "limit").value) == 100
  {
    assert NatToString(1) == "1";
    assert NatToString(10) == "10";
    assert NatToString(100) == "100";
    IntToStringRoundTrip(100);
  }

  /**
   * The `useApi` hook: the request primitive with its own error slot. `sent` records
   * every request handed to the transport, in order.
   */
  class ApiClient {
    const baseUrl: string
    var error: Option<ApiError>
    ghost var sent: seq<Outgoing>

    constructor (baseUrl: string)
      ensures this.baseUrl == baseUrl && error == None && sent == []
    {
      this.baseUrl := baseUrl;
      error := None;
      sent := [];
    }

    /** `request(endpoint, options)`: exactly one request, and the slot gets its error or null. */
    method Request<T>(path: string, query: seq<Param>, verb: Option<string>, body: Option<string>,
                      send: Outgoing -> Reply<T>)
      returns (data: Option<Data<T>>)
      modifies this
      ensures var out := OutgoingFor(baseUrl, path, query, verb, body);
              sent == old(sent) + [out] &&
              data == Classify(send(out)).data && error == Classify(send(out)).error
    {
      var out := OutgoingFor(baseUrl, path, query, verb, body);
      sent := sent + [out];
      var o := Classify(send(out));
      error := o.error;
      data := o.data;
    }
  }

  /** A repeating timer registered with `setInterval`: its period and what it calls. */
  datatype Interval<C> = Interval(period: int, callback: C)

  /**
   * The timers of one poller as the event loop holds them: every interval that has been
   * set and not cleared. Handles are positive, so a stored handle is always truthy.
   */
  class Intervals<C> {
    var live: map<nat, Interval<C>>
    var next: nat

    ghost predicate Valid()
      reads this
    {
      next >= 1 && forall id :: id in live ==> 1 <= id < next
    }

    constructor ()
      ensures Valid() && live == map[]
    {
      live := map[];
      next := 1;
    }

    method SetInterval(period: int, callback: C) returns (id: nat)
      requires Valid()
      modifies this
      ensures Valid() && id >= 1 && id !in old(live)
      ensures live == old(live)[id := Interval(period, callback)]
    {
      id := next;
      live := live[id := Interval(period, callback)];
      next := next + 1;
    }

    /** `clearInterval(id)`: a handle that is already cleared is ignored. */
    method ClearInterval(id: nat)
      requires Valid()
      modifies this
      ensures Valid() && live == old(live) - {id}
    {
      live := live - {id};
    }
  }

  const PortfolioFailure := "Failed to fetch portfolio data"
  const TransactionsFailure := "Failed to fetch transactions"
  const LogsFailure := "Failed to fetch logs"
  const BotsFailure := "Failed to fetch bot status"

  /** The error a poller records when `request` returned null. */
  function PollerError(message: string): ApiError
  {
    ApiError(message, None, NoDetails)
  }

  /** `usePortfolio(pollInterval)`: a snapshot poller, loading until the first reply. */
  class PortfolioPoller {
    const api: ApiClient
    const timers: Intervals<()>
    const pollInterval: int
    var portfolio: Option<Data<PortfolioSummary>>
    var isLoading: bool
    var error: Option<ApiError>
    var pollTimer: Option<nat>

    /** Every live interval is the one `pollTimerRef` holds. */
    ghost predicate Valid()
      reads this, timers
    {
      timers.Valid() && forall id :: id in timers.live ==> pollTimer == Some(id)
    }

    constructor (baseUrl: string, pollInterval: int)
      ensures Valid() && fresh(api) && fresh(timers)
      ensures api.baseUrl == baseUrl && api.sent == [] && timers.live == map[]
      ensures this.pollInterval == pollInterval
      ensures portfolio == None && isLoading && error == None && pollTimer == None
    {
      api := new ApiClient(baseUrl);
      timers := new Intervals();
      this.pollInterval := pollInterval;
      portfolio := None;
      isLoading := true;
      error := None;
      pollTimer := None;
    }

    /**
     * The state after one `fetchPortfolio` from a transport log `priorSent` and a snapshot
     * `prior`: one GET more; a value replaces the snapshot and clears the error, null keeps
     * the snapshot and sets the error; loading is over.
     */
    ghost predicate Fetched(send: Outgoing -> Reply<PortfolioSummary>, priorSent: seq<Outgoing>,
                            prior: Option<Data<PortfolioSummary>>)
      reads this, api
    {
      var out := OutgoingFor(api.baseUrl, "/api/portfolio", [], None, None);
      var data := Classify(send(out)).data;
      api.sent == priorSent + [out] &&
      (data.Some? ==> portfolio == Some(data.value) && error == None) &&
      (data.None? ==> portfolio == prior && error == Some(PollerError(PortfolioFailure))) &&
      !isLoading
    }

    /** `fetchPortfolio`: one GET; a value replaces the snapshot, null keeps it and sets the error. */
    method FetchPortfolio(send: Outgoing -> Reply<PortfolioSummary>)
      modifies this, api
      ensures Fetched(send, old(api.sent), old(portfolio))
      ensures pollTimer == old(pollTimer)
    {
      var data := api.Request("/api/portfolio", [], None, None, send);
      if data.Some? {
        portfolio := Some(data.value);
        error := None;
      } else {
        error := Some(PollerError(PortfolioFailure));
      }
      isLoading := false;
    }

    /** The mount effect: one immediate fetch, then an interval of `pollInterval` ms. */
    method Mount(send: Outgoing -> Reply<PortfolioSummary>)
      requires Valid() && timers.live == map[]
      modifies this, api, timers
      ensures Valid() && pollTimer.Some? && Fetched(send, old(api.sent), old(portfolio))
      ensures timers.live == map[pollTimer.value := Interval(pollInterval, ())]
    {
      FetchPortfolio(send);
      var id := timers.SetInterval(pollInterval, ());
      pollTimer := Some(id);
    }

    /** The effect cleanup: clear the interval when a handle is stored. */
    method Unmount()
      requires Valid()
      modifies timers
      ensures Valid() && timers.live == map[]
    {
      if pollTimer.Some? {
        timers.ClearInterval(pollTimer.value);
      }
    }

    /** The event loop fires interval `id`: only a live interval fetches. */
    method Tick(id: nat, send: Outgoing -> Reply<PortfolioSummary>)
      requires Valid()
      modifies this, api
      ensures Valid() && pollTimer == old(pollTimer)
      ensures id in timers.live ==> Fetched(send, old(api.sent), old(portfolio))
      ensures id !in timers.live ==> api.sent == old(api.sent) && portfolio == old(portfolio)
                                     && error == old(error) && isLoading == old(isLoading)
    {
      if id in timers.live {
        FetchPortfolio(send);
      }
    }

    /** `refresh()`: fetch now, leaving the timer as it is. */
    method Refresh(send: Outgoing -> Reply<PortfolioSummary>)
      requires Valid()
      modifies this, api
      ensures Valid() && pollTimer == old(pollTimer) && Fetched(send, old(api.sent), old(portfolio))
    {
      FetchPortfolio(send);
    }
  }

  const BotsPollInterval := 30000

  /** `useBots()`: the bot-status poller, every 30 s, loading until the first reply. */
  class BotsPoller {
    const api: ApiClient
    const timers: Intervals<()>
    var bots: Data<seq<BotStatus>>
    var isLoading: bool
    var error: Option<ApiError>
    var pollTimer: Option<nat>

    ghost predicate Valid()
      reads this, timers
    {
      timers.Valid() && forall id :: id in timers.live ==> pollTimer == Some(id)
    }

    constructor (baseUrl: string)
      ensures Valid() && fresh(api) && fresh(timers)
      ensures api.baseUrl == baseUrl && api.sent == [] && timers.live == map[]
      ensures bots == Payload([]) && isLoading && error == None && pollTimer == None
    {
      api := new ApiClient(baseUrl);
      timers := new Intervals();
      bots := Payload([]);
      isLoading := true;
      error := None;
      pollTimer := None;
    }

    /** The state after one fetch from `priorSent` and `prior`: as for the portfolio poller. */
    ghost predicate Fetched(send: Outgoing -> Reply<seq<BotStatus>>, priorSent: seq<Outgoing>,
                            prior: Data<seq<BotStatus>>)
      reads this, api
    {
      var out := OutgoingFor(api.baseUrl, "/api/bots", [], None, None);
      var data := Classify(send(out)).data;
      api.sent == priorSent + [out] &&
      (data.Some? ==> bots == data.value && error == None) &&
      (data.None? ==> bots == prior && error == Some(PollerError(BotsFailure))) &&
      !isLoading
    }

    method Fetch(send: Outgoing -> Reply<seq<BotStatus>>)
      modifies this, api
      ensures Fetched(send, old(api.sent), old(bots))
      ensures pollTimer == old(pollTimer)
    {
      var data := api.Request("/api/bots", [], None, None, send);
      if data.Some? {
        bots := data.value;
        error := None;
      } else {
        error := Some(PollerError(BotsFailure));
      }
      isLoading := false;
    }

    method Mount(send: Outgoing -> Reply<seq<BotStatus>>)
      requires Valid() && timers.live == map[]
      modifies this, api, timers
      ensures Valid() && pollTimer.Some? && Fetched(send, old(api.sent), old(bots))
      ensures timers.live == map[pollTimer.value := Interval(BotsPollInterval, ())]
    {
      Fetch(send);
      var id := timers.SetInterval(BotsPollInterval, ());
      pollTimer := Some(id);
    }

    method Unmount()
      requires Valid()
      modifies timers
      ensures Valid() && timers.live == map[]
    {
      if pollTimer.Some? {
        timers.ClearInterval(pollTimer.value);
      }
    }

    method Tick(id: nat, send: Outgoing -> Reply<seq<BotStatus>>)
      requires Valid()
      modifies this, api
      ensures Valid() && pollTimer == old(pollTimer)
      ensures id in timers.live ==> Fetched(send, old(api.sent), old(bots))
      ensures id !in timers.live ==> api.sent == old(api.sent) && bots == old(bots)
                                     && error == old(error) && isLoading == old(isLoading)
    {
      if id in timers.live {
        Fetch(send);
      }
    }

    method Refresh(send: Outgoing -> Reply<seq<BotStatus>>)
      requires Valid()
      modifies this, api
      ensures Valid() && pollTimer == old(pollTimer) && Fetched(send, old(api.sent), old(bots))
    {
      Fetch(send);
    }
  }

  /**
   * `useTransactions(limit)`: on-demand pages of the transaction history. A 204 reply leaves
   * `{}` as the data, whose `items`, `total` and `has_more` read as undefined (NoContent here).
   */
  class TransactionsPoller {
    const api: ApiClient
    const limit: int
    var items: Data<seq<Transaction>>
    var total: Data<int>
    var hasMore: Data<bool>
    var isLoading: bool
    var error: Option<ApiError>

    constructor (baseUrl: string, limit: int)
      ensures fresh(api) && api.baseUrl == baseUrl && api.sent == [] && this.limit == limit
      ensures items == Payload([]) && total == Payload(0) && hasMore == Payload(false)
      ensures !isLoading && error == None
    {
      api := new ApiClient(baseUrl);
      this.limit := limit;
      items := Payload([]);
      total := Payload(0);
      hasMore := Payload(false);
      isLoading := false;
      error := None;
    }

    /**
     * The state after one `fetch(page, bot, search)` from `priorSent` and the prior page: one
     * GET more; a page replaces items, total and hasMore wholesale (a 204 leaves all three
     * undefined), null keeps them and sets the error; loading is over.
     */
    ghost predicate Fetched(page: int, bot: Option<string>, search: Option<string>,
                            send: Outgoing -> Reply<ListResponse<Transaction>>, priorSent: seq<Outgoing>,
                            priorItems: Data<seq<Transaction>>, priorTotal: Data<int>,
                            priorHasMore: Data<bool>)
      reads this, api
    {
      var out := OutgoingFor(api.baseUrl, "/api/transactions", TransactionsQuery(page, limit, bot, search),
                             None, None);
      var data := Classify(send(out)).data;
      api.sent == priorSent + [out] &&
      (data == Some(NoContent) ==>
         items == NoContent && total == NoContent && hasMore == NoContent && error == None) &&
      (data.Some? && data.value.Payload? ==>
         var lr := data.value.value;
         items == Payload(lr.items) && total == Payload(lr.total) &&
         hasMore == Payload(lr.hasMore) && error == None) &&
      (data.None? ==> items == priorItems && total == priorTotal && hasMore == priorHasMore
                      && error == Some(PollerError(TransactionsFailure))) &&
      !isLoading
    }

    /** `fetch(page, bot, search)`: the page replaces items, total and hasMore wholesale. */
    method Fetch(page: int, bot: Option<string>, search: Option<string>,
                 send: Outgoing -> Reply<ListResponse<Transaction>>)
      modifies this, api
      ensures Fetched(page, bot, search, send, old(api.sent), old(items), old(total), old(hasMore))
    {
      isLoading := true;
      var q := TransactionsQuery(page, limit, bot, search);
      var data := api.Request("/api/transactions", q, None, None, send);
      if data.Some? {
        match data.value {
        case NoContent =>
          items, total, hasMore := NoContent, NoContent, NoContent;
        case Payload(lr) =>
          items, total, hasMore := Payload(lr.items), Payload(lr.total), Payload(lr.hasMore);
        }
        error := None;
      } else {
        error := Some(PollerError(TransactionsFailure));
      }
      isLoading := false;
    }
  }

  /** The filters a log-polling interval was started with (its closure). */
  datatype LogFilters = LogFilters(bot: Option<string>, level: Option<string>, search: Option<string>)

  const LogsPollInterval := 10000

  /** `useLogs()`: on-demand log snapshots, with optional polling every 10 s. */
  class LogsPoller {
    const api: ApiClient
    const timers: Intervals<LogFilters>
    var logs: Data<seq<LogEntry>>
    var isLoading: bool
    var error: Option<ApiError>
    var pollTimer: Option<nat>

    ghost predicate Valid()
      reads this, timers
    {
      timers.Valid() && forall id :: id in timers.live ==> pollTimer == Some(id)
    }

    constructor (baseUrl: string)
      ensures Valid() && fresh(api) && fresh(timers)
      ensures api.baseUrl == baseUrl && api.sent == [] && timers.live == map[]
      ensures logs == Payload([]) && !isLoading && error == None && pollTimer == None
    {
      api := new ApiClient(baseUrl);
      timers := new Intervals();
      logs := Payload([]);
      isLoading := false;
      error := None;
      pollTimer := None;
    }

    /**
     * The state after one `fetch(bot, level, search, limit)` from `priorSent` and `prior`: one
     * GET more; the items replace the list (a 204 leaves `{}`, whose items are undefined),
     * null keeps the list and sets the error; loading is over.
     */
    ghost predicate Fetched(bot: Option<string>, level: Option<string>, search: Option<string>,
                            limit: int, send: Outgoing -> Reply<ListResponse<LogEntry>>,
                            priorSent: seq<Outgoing>, prior: Data<seq<LogEntry>>)
      reads this, api
    {
      var out := OutgoingFor(api.baseUrl, "/api/logs", LogsQuery(bot, level, search, limit), None, None);
      var data := Classify(send(out)).data;
      api.sent == priorSent + [out] &&
      (data == Some(NoContent) ==> logs == NoContent && error == None) &&
      (data.Some? && data.value.Payload? ==> logs == Payload(data.value.value.items) && error == None) &&
      (data.None? ==> logs == prior && error == Some(PollerError(LogsFailure))) &&
      !isLoading
    }

    /** `fetch(bot, level, search, limit)`: the items replace the list, nothing is appended. */
    method Fetch(bot: Option<string>, level: Option<string>, search: Option<string>, limit: int,
                 send: Outgoing -> Reply<ListResponse<LogEntry>>)
      modifies this, api
      ensures Fetched(bot, level, search, limit, send, old(api.sent), old(logs))
      ensures pollTimer == old(pollTimer)
    {
      isLoading := true;
      var q := LogsQuery(bot, level, search, limit);
      var data := api.Request("/api/logs", q, None, None, send);
      if data.Some? {
        match data.value {
        case NoContent =>
          logs := NoContent;
        case Payload(lr) =>
          logs := Payload(lr.items);
        }
        error := None;
      } else {
        error := Some(PollerError(LogsFailure));
      }
      isLoading := false;
    }

    /**
     * `startPolling(bot, level, search)`: exactly one immediate fetch, then a 10 s interval
     * that repeats it with the same filters. An interval still live is not cleared first.
     */
    method StartPolling(bot: Option<string>, level: Option<string>, search: Option<string>,
                        send: Outgoing -> Reply<ListResponse<LogEntry>>)
      requires timers.Valid()
      modifies this, api, timers
      ensures timers.Valid() && pollTimer.Some? && pollTimer.value !in old(timers.live)
      ensures timers.live == old(timers.live)[pollTimer.value :=
                                                Interval(LogsPollInterval, LogFilters(bot, level, search))]
      ensures Fetched(bot, level, search, DefaultLogLimit, send, old(api.sent), old(logs))
    {
      Fetch(bot, level, search, DefaultLogLimit, send);
      var id := timers.SetInterval(LogsPollInterval, LogFilters(bot, level, search));
      pollTimer := Some(id);
    }

    /** `stopPolling()`: clears the stored handle if there is one; with none it does nothing. */
    method StopPolling()
      requires timers.Valid()
      modifies timers
      ensures timers.Valid()
      ensures timers.live == if pollTimer.Some? then old(timers.live) - {pollTimer.value}
                             else old(timers.live)
      ensures Valid() ==> timers.live == map[]
    {
      if pollTimer.Some? {
        timers.ClearInterval(pollTimer.value);
      }
    }

    /** Interval `id` fires: a live one repeats its own filters' fetch, a cleared one does nothing. */
    method Tick(id: nat, send: Outgoing -> Reply<ListResponse<LogEntry>>)
      requires timers.Valid()
      modifies this, api
      ensures id in timers.live ==>
                var f := timers.live[id].callback;
                Fetched(f.bot, f.level, f.search, DefaultLogLimit, send, old(api.sent), old(logs))
      ensures id !in timers.live ==> api.sent == old(api.sent) && logs == old(logs)
                                     && error == old(error) && isLoading == old(isLoading)
      ensures pollTimer == old(pollTimer)
    {
      if id in timers.live {
        var f := timers.live[id].callback;
        Fetch(f.bot, f.level, f.search, DefaultLogLimit, send);
      }
    }
  }

  /** `useApiCall()`: one-off mutations, with a loading flag around the single request. */
  class ApiCaller {
    const api: ApiClient
    var isLoading: bool
    var error: Option<ApiError>

    constructor (baseUrl: string)
      ensures fresh(api) && api.baseUrl == baseUrl && api.sent == [] && !isLoading && error == None
    {
      api := new ApiClient(baseUrl);
      isLoading := false;
      error := None;
    }

    /**
     * `call(endpoint, verb, body)`: exactly one request (no retry), the body only when given;
     * the caller's own error slot is never written, only the request's.
     */
    method Call<T>(path: string, verb: string, body: Option<string>, send: Outgoing -> Reply<T>)
      returns (data: Option<Data<T>>)
      modifies this, api
      ensures var out := OutgoingFor(api.baseUrl, path, [], Some(verb), body);
              api.sent == old(api.sent) + [out] && data == Classify(send(out)).data &&
              api.error == Classify(send(out)).error
      ensures !isLoading && error == old(error)
    {
      isLoading := true;
      data := api.Request(path, [], Some(verb), body, send);
      isLoading := false;
    }
  }
}
