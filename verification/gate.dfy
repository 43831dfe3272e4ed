/** The `limit` middleware in front of the GET route `/faucet/{address}`:
    find the client's limiter and let the request through only when it has
    a token to spare (status 429 is "Too Many Requests", section 4 of
    RFC 6585). */
module Gate {
  import opened Options
  import opened Visitors
  import opened Balance
  import opened Disburse

  /** What the middleware decided: answer with `http.Error(status, text)`,
      or hand the request to the next handler. */
  datatype Decision = Rejected(code: int, text: string) | Forwarded

  datatype Gated = Gated(registry: Registry, decision: Decision)

  /** `limiter.Allow()` at this instant, for the limiter in hand. */
  type Allowance = Limiter -> bool

  const InternalErrorText: string := "Internal Server Error"
  const TooManyRequestsText: string := "Too Many Requests"

  /** `limit`: `host` is the host part `net.SplitHostPort` found in the
      remote address, or None when it failed. */
  function Limit(r: Registry, host: Option<string>, now: int, allow: Allowance): (g: Gated)
    // an unreadable remote address is a 500 and leaves the registry alone
    ensures host.None? ==> g == Gated(r, Rejected(500, InternalErrorText))
    // otherwise getVisitor runs once for the client, which is seen now ...
    ensures host.Some? ==> g.registry == GetVisitor(r, host.value, now).registry
    ensures host.Some? ==> host.value in g.registry.visitors
                           && g.registry.visitors[host.value].lastSeen == now
                           && g.registry.visitors.Keys == r.visitors.Keys + {host.value}
    // ... and the request goes on exactly when its limiter allows it
    ensures host.Some? ==>
              (g.decision == Forwarded <==> allow(g.registry.visitors[host.value].limiter))
    ensures host.Some? && g.decision.Rejected? ==> g.decision == Rejected(429, TooManyRequestsText)
  {
    match host
    case None => Gated(r, Rejected(500, InternalErrorText))
    case Some(ip) =>
      var a := GetVisitor(r, ip, now);
      if !allow(a.limiter) then Gated(a.registry, Rejected(429, TooManyRequestsText))
      else Gated(a.registry, Forwarded)
  }

  /** One GET request on `/faucet/{address}`: the gate, then, when it
      forwards, `curlFaucetHandler`. */
  datatype Served = Served(registry: Registry, decision: Decision, handled: Option<Handled>)

  function ServeFaucet(r: Registry, host: Option<string>, now: int, allow: Allowance,
                       cfg: Config, address: string, query: Oracle, parse: Parser): (s: Served)
    // the gate's registry change and decision are those of `limit`
    ensures s.registry == Limit(r, host, now, allow).registry
    ensures s.decision == Limit(r, host, now, allow).decision
    // the handler runs exactly once when the gate forwards, and not at all otherwise
    ensures s.handled.Some? <==> s.decision.Forwarded?
    ensures s.handled.Some? ==> s.handled.value == CheckAndExecute(cfg, address, query, parse)
    // a rejection is a 500 or a 429
    ensures s.decision.Rejected? ==> s.decision.code == 500 || s.decision.code == 429
    ensures host.None? ==> s.registry == r && s.handled == None
  {
    var g := Limit(r, host, now, allow);
    match g.decision
    case Forwarded => Served(g.registry, Forwarded, Some(CheckAndExecute(cfg, address, query, parse)))
    case Rejected(_, _) => Served(g.registry, g.decision, None)
  }

  /** A client whose limiter allows the request is marked as seen and its
      request is handled exactly once by the disbursement handler. */
  lemma AllowedClientIsServed(r: Registry, ip: string, now: int, allow: Allowance,
                              cfg: Config, address: string, query: Oracle, parse: Parser)
    requires allow(GetVisitor(r, ip, now).limiter)
    ensures var s := ServeFaucet(r, Some(ip), now, allow, cfg, address, query, parse);
            && s.decision == Forwarded
            && s.handled == Some(CheckAndExecute(cfg, address, query, parse))
            && s.registry == GetVisitor(r, ip, now).registry
  {
  }

  /** A client whose limiter refuses gets 429 and triggers no balance query
      and no transfer, while still being marked as seen. */
  lemma RefusedClientIssuesNothing(r: Registry, ip: string, now: int, allow: Allowance,
                                   cfg: Config, address: string, query: Oracle, parse: Parser)
    requires !allow(GetVisitor(r, ip, now).limiter)
    ensures var s := ServeFaucet(r, Some(ip), now, allow, cfg, address, query, parse);
            && s.decision == Rejected(429, TooManyRequestsText)
            && s.handled == None
            && s.registry == GetVisitor(r, ip, now).registry
  {
  }

}
