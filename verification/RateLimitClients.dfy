/** Clients told by their address: what the limiter lets one host do, over all its connections. */
module RateLimitClients {
  import opened Options
  import opened RateLimit

  /** The request's address splits into this host and some port. */
  predicate FromHost(r: Request, host: string) {
    host != "" && r.splitHost == Some(host)
  }

  predicate Unsplit(r: Request) {
    r.splitHost.None? || r.splitHost == Some("")
  }

  predicate Reads(r: Request) {
    r.httpMethod in {"GET", "HEAD"}
  }

  predicate InApi(r: Request) {
    |r.path| >= 4 && r.path[..4] == "/v1/"
  }

  lemma InApiIsLimited(r: Request)
    ensures InApi(r) <==> IsLimited(r)
  {
  }

  /**
   Two requests share one budget exactly when both read or both do not and they come from one host, whatever their
   ports; addresses that do not split stand for themselves, and callers without any address share one budget.
   */
  lemma SharedBudgetIff(r: Request, r': Request)
    ensures forall h, h' :: FromHost(r, h) && FromHost(r', h') ==>
              (ClientKey(r) == ClientKey(r') <==> h == h' && Reads(r) == Reads(r'))
    ensures Unsplit(r) && Unsplit(r') && r.remoteAddr != "" && r'.remoteAddr != "" ==>
              (ClientKey(r) == ClientKey(r') <==> r.remoteAddr == r'.remoteAddr && Reads(r) == Reads(r'))
    ensures Unsplit(r) && Unsplit(r') && r.remoteAddr == r'.remoteAddr == "" ==>
              (ClientKey(r) == ClientKey(r') <==> Reads(r) == Reads(r'))
  {
    KeyFixesLimit(r, r');
  }

  /** Requests of this host, reads or else mutations, that reach a handler from `start` on and before `end`. */
  function ServedHost(windows: map<string, Window>, requests: seq<Request>, host: string, reading: bool,
                      start: int, end: int): nat
    decreases |requests|
  {
    if requests == [] then 0
    else if !InApi(requests[0]) then ServedHost(windows, requests[1..], host, reading, start, end)
    else
      var r, c := requests[0], CallOf(requests[0]);
      var mine := FromHost(r, host) && Reads(r) == reading && start <= r.now < end;
      (if mine && Allowed(windows, c) then 1 else 0)
      + ServedHost(Count(windows, c), requests[1..], host, reading, start, end)
  }

  /** The same when Redis keeps the counters. */
  function ServedHostByRedis(store: map<string, Counter>, requests: seq<Request>, host: string, reading: bool,
                             start: int, end: int, grace: int): nat
    decreases |requests|
  {
    if requests == [] then 0
    else if !InApi(requests[0]) then ServedHostByRedis(store, requests[1..], host, reading, start, end, grace)
    else
      var r, c := requests[0], CallOf(requests[0]);
      var mine := FromHost(r, host) && Reads(r) == reading && start <= r.now < end;
      (if mine && Incremented(store, c.now, c.key, grace).count <= c.limit then 1 else 0)
      + ServedHostByRedis(Scripted(store, c, grace), requests[1..], host, reading, start, end, grace)
  }

  function SomeRequest(host: string, reading: bool): Request {
    Request(0, if reading then "GET" else "POST", "/v1/devices", "", Some(host))
  }

  lemma {:induction false} ServedHostWithin(windows: map<string, Window>, requests: seq<Request>, host: string,
                                            reading: bool, start: int, end: int)
    requires host != ""
    ensures ServedHost(windows, requests, host, reading, start, end)
            <= Passed(windows, Calls(requests), ClientKey(SomeRequest(host, reading)), start, end)
    decreases |requests|
  {
    if requests != [] {
      var r := requests[0];
      SharedBudgetIff(r, SomeRequest(host, reading));
      InApiIsLimited(r);
      if IsLimited(r) {
        assert Calls(requests)[1..] == Calls(requests[1..]);
        ServedHostWithin(Count(windows, CallOf(r)), requests[1..], host, reading, start, end);
      } else {
        ServedHostWithin(windows, requests[1..], host, reading, start, end);
      }
    }
  }

  lemma {:induction false} ServedByRedisWithin(store: map<string, Counter>, requests: seq<Request>, host: string,
                                               reading: bool, start: int, end: int, grace: int)
    requires host != ""
    ensures ServedHostByRedis(store, requests, host, reading, start, end, grace)
            <= RedisPassed(store, Calls(requests), ClientKey(SomeRequest(host, reading)), start, end, grace)
    decreases |requests|
  {
    if requests != [] {
      var r := requests[0];
      SharedBudgetIff(r, SomeRequest(host, reading));
      InApiIsLimited(r);
      if IsLimited(r) {
        assert Calls(requests)[1..] == Calls(requests[1..]);
        ServedByRedisWithin(Scripted(store, CallOf(r), grace), requests[1..], host, reading, start, end, grace);
      } else {
        ServedByRedisWithin(store, requests[1..], host, reading, start, end, grace);
      }
    }
  }

  /**
   Over however many connections, in any minute one host gets at most 479 reads and 239 mutations served; the same
   when Redis keeps the counters, however long it keeps answering for an expired key.
   */
  lemma HostMinuteBound(requests: seq<Request>, host: string, reading: bool, start: int, grace: int)
    requires RequestsInOrder(requests) && host != "" && grace >= 0
    ensures ServedHost(map[], requests, host, reading, start, start + 60_000) <= if reading then 479 else 239
    ensures ServedHostByRedis(map[], requests, host, reading, start, start + 60_000, grace)
            <= if reading then 479 else 239
  {
    var client := SomeRequest(host, reading);
    ServedHostWithin(map[], requests, host, reading, start, start + 60_000);
    ServedByRedisWithin(map[], requests, host, reading, start, start + 60_000, grace);
    CallsShape(requests, client, if requests == [] then 0 else requests[0].now);
    WindowsPositive(requests);
    FixedWindowBound(map[], Calls(requests), ClientKey(client), LimitOf(client), WINDOW, start);
    RedisWindowBound(Calls(requests), ClientKey(client), LimitOf(client), WINDOW, start, grace);
  }

  lemma {:induction false} WindowsPositive(requests: seq<Request>)
    ensures forall i :: 0 <= i < |Calls(requests)| ==> Calls(requests)[i].window > 0
  {
    if requests != [] {
      WindowsPositive(requests[1..]);
    }
  }

  /** Requests of this host, reads or else mutations. */
  function Sent(requests: seq<Request>, host: string, reading: bool): nat {
    if requests == [] then 0
    else (if FromHost(requests[0], host) && Reads(requests[0]) == reading then 1 else 0)
         + Sent(requests[1..], host, reading)
  }

  predicate WithinMinute(requests: seq<Request>, end: int) {
    forall i :: 0 <= i < |requests| ==>
                  InApi(requests[i]) && !Unsplit(requests[i]) && end - 60_000 <= requests[i].now < end
  }

  lemma OwnBudgetIff(r: Request, host: string, reading: bool)
    requires host != "" && !Unsplit(r)
    ensures ClientKey(r) == ClientKey(SomeRequest(host, reading)) <==> FromHost(r, host) && Reads(r) == reading
  {
    var client := SomeRequest(host, reading);
    SharedBudgetIff(r, client);
    assert FromHost(r, r.splitHost.value) && FromHost(client, host) && Reads(client) == reading;
  }

  /**
   The budget is there to be used, and one's own: of the requests of a minute in which a host sends no more than 240
   reads or 120 mutations, every one of these is served, whatever other hosts send; its earlier window is over.
   */
  lemma {:induction false} WithinBudgetServed(windows: map<string, Window>, requests: seq<Request>, host: string,
                                              reading: bool, end: int)
    requires host != "" && WithinMinute(requests, end)
    requires var key := ClientKey(SomeRequest(host, reading));
             key in windows ==> windows[key].expiresAt <= end - 60_000
    requires Sent(requests, host, reading) <= if reading then 240 else 120
    ensures ServedHost(windows, requests, host, reading, end - 60_000, end) == Sent(requests, host, reading)
    decreases |requests|
  {
    if requests != [] {
      OwnBudgetIff(requests[0], host, reading);
      var next := Count(windows, CallOf(requests[0]));
      if FromHost(requests[0], host) && Reads(requests[0]) == reading {
        OpenWindowServes(next, requests[1..], host, reading, end);
      } else {
        WithinBudgetServed(next, requests[1..], host, reading, end);
      }
    }
  }

  lemma {:induction false} OpenWindowServes(windows: map<string, Window>, requests: seq<Request>, host: string,
                                            reading: bool, end: int)
    requires host != "" && WithinMinute(requests, end)
    requires var key := ClientKey(SomeRequest(host, reading));
             key in windows && windows[key].expiresAt >= end
             && windows[key].count + Sent(requests, host, reading) <= if reading then 240 else 120
    ensures ServedHost(windows, requests, host, reading, end - 60_000, end) == Sent(requests, host, reading)
    decreases |requests|
  {
    if requests != [] {
      OwnBudgetIff(requests[0], host, reading);
      OpenWindowServes(Count(windows, CallOf(requests[0])), requests[1..], host, reading, end);
    }
  }
}
