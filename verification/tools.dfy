/**
  The MCP tools and the `deposit` resource of the SSE server: how each picks
  the API token for its session, the deposit it builds, the pawaPay request it
  sends, and how a POST to /messages reaches a tool at all.
 */
module Tools {
  import opened JsValues
  import opened PawaPay
  import Sessions

  /** The process configuration the tools read: pawaPay base URL and default API key. */
  datatype Env = Env(apiUrl: string, apiKey: string)

  /** The request names a session, and that session registered a non-empty key. */
  predicate HasSessionKey(keys: map<string, string>, sessionId: Option<string>) {
    TruthyString(sessionId) && sessionId.value in keys && keys[sessionId.value] != ""
  }

  /**
    The token every tool but `correspondentAvailability` passes on: the
    session's key overrides the process default whenever it is truthy.
   */
  function ResolveToken(keys: map<string, string>, sessionId: Option<string>, fallback: string): (token: string)
    ensures HasSessionKey(keys, sessionId) ==> token == keys[sessionId.value]
    ensures !HasSessionKey(keys, sessionId) ==> token == fallback
  {
    if HasSessionKey(keys, sessionId) then keys[sessionId.value] else fallback
  }

  /**
    Precedence over a fresh session: its own non-empty key wins, and it gets
    the default when opened without a key or with one whose text is empty.
   */
  lemma TokenAfterOpen<T>(r: Sessions.Registry<T>, id: string, transport: T, key: QueryValue, fallback: string)
    requires Sessions.Valid(r)
    requires id !in r.transports
    ensures ResolveToken(Sessions.Open(r, id, transport, key).keys, Some(id), fallback)
         == (if id != "" && Truthy(key) && ToText(key).Ok? && ToText(key).value != "" then ToText(key).value else fallback)
  {
  }

  /** Opening one session does not change the token any other session resolves. */
  lemma TokenOfOtherSession<T>(r: Sessions.Registry<T>, id: string, transport: T, key: QueryValue, other: string, fallback: string)
    requires id !in r.transports
    requires other != id
    ensures ResolveToken(Sessions.Open(r, id, transport, key).keys, Some(other), fallback)
         == ResolveToken(r.keys, Some(other), fallback)
  {
  }

  /** A closed session's id resolves to the default. */
  lemma TokenAfterClose<T>(r: Sessions.Registry<T>, id: string, fallback: string)
    ensures ResolveToken(Sessions.Close(r, id).keys, Some(id), fallback) == fallback
  {
  }

  /**
    Precedence over any history: a live session whose open stored a non-empty
    key resolves to that key; a session with no keyed live stream (never
    opened, closed, or opened without a truthy, printable key) resolves to
    the default.
   */
  lemma TokenAfterHistory<T>(events: seq<Sessions.Event<T>>, id: string, fallback: string)
    requires Sessions.UniqueOpens(events)
    ensures forall i :: Sessions.KeyedFrom(events, i, id) && id != "" && Sessions.StoredKey(events[i].key).value != "" ==>
              ResolveToken(Sessions.Replay(events).keys, Some(id), fallback) == Sessions.StoredKey(events[i].key).value
    ensures (forall i :: !Sessions.KeyedFrom(events, i, id)) ==>
              ResolveToken(Sessions.Replay(events).keys, Some(id), fallback) == fallback
  {
    Sessions.ReplayKeys(events, id);
  }

  /** The arguments of the `deposit` tool (all strings). */
  datatype DepositArgs = DepositArgs(
    depositId: string,
    amount: string,
    currency: string,
    msisdn: string,
    correspondent: string,
    country: string,
    description: string)

  const MsisdnPayer := "MSISDN"

  /**
    The deposit the `deposit` tool builds: an MSISDN payer, no
    pre-authorisation code, no metadata, and the current time as customer
    timestamp (passed in: the clock is not modelled).
   */
  function BuildDeposit(args: DepositArgs, timestamp: string): (d: DepositRequest)
    ensures DepositArgsOf(d) == Some(args)
    ensures d.customerTimestamp == Some(timestamp)
  {
    DepositRequest(
      depositId := Some(args.depositId),
      amount := Some(args.amount),
      currency := Some(args.currency),
      country := Some(args.country),
      correspondent := Some(args.correspondent),
      payer := Payer(Some(MsisdnPayer), Some(args.msisdn)),
      customerTimestamp := Some(timestamp),
      statementDescription := Some(args.description),
      preAuthorisationCode := None,
      metadata := None)
  }

  /**
    The tool arguments a deposit carries, when it has the shape the tool
    builds: every copied field set, an MSISDN payer, and neither a
    pre-authorisation code nor metadata.
   */
  function DepositArgsOf(d: DepositRequest): Option<DepositArgs> {
    if && d.depositId.Some? && d.amount.Some? && d.currency.Some? && d.country.Some?
       && d.correspondent.Some? && d.payer.kind == Some(MsisdnPayer) && d.payer.address.Some?
       && d.statementDescription.Some? && d.preAuthorisationCode.None? && d.metadata.None?
    then Some(DepositArgs(d.depositId.value, d.amount.value, d.currency.value, d.payer.address.value,
                          d.correspondent.value, d.country.value, d.statementDescription.value))
    else None
  }

  /** Every deposit of the tool's shape is the one built from its own arguments and timestamp. */
  lemma DepositRoundTrip(d: DepositRequest)
    requires DepositArgsOf(d).Some?
    requires d.customerTimestamp.Some?
    ensures BuildDeposit(DepositArgsOf(d).value, d.customerTimestamp.value) == d
  {
  }

  /** One invocation of a tool, with its arguments. */
  datatype ToolCall =
    | ActiveConfCall
    | PredictCall(msisdn: string)
    | AvailabilityCall
    | DepositCall(args: DepositArgs, timestamp: string)
    | DepositStatusCall(transactionId: string)

  /** The pawaPay operation each tool is meant to call. */
  function Intended(call: ToolCall): Operation {
    match call
    case ActiveConfCall => ActiveConfOp
    case PredictCall(msisdn) => PredictOp(msisdn)
    case AvailabilityCall => AvailabilityOp
    case DepositCall(args, timestamp) => SendDepositOp(BuildDeposit(args, timestamp))
    case DepositStatusCall(id) => GetDepositOp(id)
  }

  /**
    The request a tool hands to `fetch`, for a session id carried by the
    request context. Every tool resolves its token the same way, except
    `correspondentAvailability`, which passes none.
   */
  function ToolRequest(call: ToolCall, keys: map<string, string>, sessionId: Option<string>, env: Env): (req: HttpRequest)
    ensures OperationOf(Some(env.apiUrl), req) == Some(Intended(call))
    ensures HeaderValue(req.headers, "Content-Type") == Some("application/json")
    ensures call.AvailabilityCall? ==> HeaderValue(req.headers, "Authorization") == None
    ensures !call.AvailabilityCall? ==>
              HeaderValue(req.headers, "Authorization")
                == (var t := ResolveToken(keys, sessionId, env.apiKey); if t != "" then Some(BearerPrefix + t) else None)
    ensures !call.AvailabilityCall? ==>
              BearerOf(req) == (var t := ResolveToken(keys, sessionId, env.apiKey); if t != "" then Some(t) else None)
  {
    var token := Some(ResolveToken(keys, sessionId, env.apiKey));
    var url := Some(env.apiUrl);
    match call
    case ActiveConfCall => ActiveConfRequest(token, url)
    case PredictCall(msisdn) => PredictRequest(msisdn, token, url)
    case AvailabilityCall => AvailabilityRequest(url)
    case DepositCall(args, timestamp) => SendDepositRequest(BuildDeposit(args, timestamp), token, url)
    case DepositStatusCall(id) => GetDepositRequest(id, token, url)
  }

  /** The credential rule is the same for every tool that uses one. */
  lemma CredentialUniform(c1: ToolCall, c2: ToolCall, keys: map<string, string>, sessionId: Option<string>, env: Env)
    requires !c1.AvailabilityCall? && !c2.AvailabilityCall?
    ensures BearerOf(ToolRequest(c1, keys, sessionId, env)) == BearerOf(ToolRequest(c2, keys, sessionId, env))
  {
  }

  /** `correspondentAvailability` sends no credential, whatever the session holds. */
  lemma AvailabilityIgnoresSession(keys: map<string, string>, sessionId: Option<string>, env: Env)
    ensures ToolRequest(AvailabilityCall, keys, sessionId, env) == ToolRequest(AvailabilityCall, map[], None, env)
    ensures BearerOf(ToolRequest(AvailabilityCall, keys, sessionId, env)) == None
  {
  }

  /** What a POST to /messages comes to for one tool call. */
  datatype Served =
    | Refused(status: nat, message: string)
    | Forwarded(request: HttpRequest)

  /**
    A POST to /messages for one tool call, through the corrected router
    `Sessions.Route`: a session id with no live transport, or one that cannot
    be coerced to a property key, is refused with 400, where the code as
    written can throw instead (`Sessions.RouteAsWritten`). A routed message
    runs the tool with the session id its context carries, `ctxId`, which
    the SDK fills in.
   */
  function Serve<T>(r: Sessions.Registry<T>, sessionId: QueryValue, ctxId: Option<string>, call: ToolCall, env: Env)
    : (s: Served)
    ensures s.Refused? <==> !(PropertyKey(sessionId).Ok? && PropertyKey(sessionId).value in r.transports)
    ensures s.Refused? ==> s == Refused(400, Sessions.NoTransportMessage)
    ensures s.Forwarded? ==> s.request == ToolRequest(call, r.keys, ctxId, env)
  {
    var routed := Sessions.Route(r, sessionId);
    if routed.Dispatched? then Forwarded(ToolRequest(call, r.keys, ctxId, env))
    else Refused(routed.status, routed.message)
  }

  /**
    When the context carries the id the message was routed by, a live
    session's own non-empty key takes precedence over the default, which
    applies otherwise.
   */
  lemma ServeSessionPrecedence<T>(r: Sessions.Registry<T>, sessionId: QueryValue, id: string, call: ToolCall, env: Env)
    requires PropertyKey(sessionId) == Ok(id) && id in r.transports
    requires !call.AvailabilityCall?
    ensures Serve(r, sessionId, Some(id), call, env).Forwarded?
    ensures var t := if id != "" && id in r.keys && r.keys[id] != "" then r.keys[id] else env.apiKey;
            HeaderValue(Serve(r, sessionId, Some(id), call, env).request.headers, "Authorization")
              == if t != "" then Some(BearerPrefix + t) else None
  {
  }

  /**
    A session opened without a key is served with the default key, and is
    refused once closed.
   */
  lemma ServeDefaultKeyScenario(env: Env)
    requires env.apiKey != ""
    ensures var r := Sessions.Open(Sessions.Empty<nat>(), "s1", 1, Missing);
            && BearerOf(Serve(r, Text("s1"), Some("s1"), ActiveConfCall, env).request) == Some(env.apiKey)
            && Serve(Sessions.Close(r, "s1"), Text("s1"), Some("s1"), ActiveConfCall, env)
               == Refused(400, Sessions.NoTransportMessage)
  {
  }

  /** A session opened with key "abc" is served with "abc", whatever the default. */
  lemma ServeSessionKeyScenario(env: Env, args: DepositArgs, timestamp: string)
    ensures var r := Sessions.Open(Sessions.Empty<nat>(), "s2", 2, Text("abc"));
            BearerOf(Serve(r, Text("s2"), Some("s2"), DepositCall(args, timestamp), env).request) == Some("abc")
  {
  }

  /** The `depositId` template variable: one id, or several. */
  datatype DepositIdParam = OneId(id: string) | IdList(ids: seq<string>)

  function IdsOf(param: DepositIdParam): (ids: seq<string>)
    ensures param.OneId? ==> ids == [param.id]
  {
    match param
    case OneId(id) => [id]
    case IdList(ids) => ids
  }

  /**
    Awaits the lookups one at a time, in order; `outcomes[i]` is what `fetch`
    answers the i-th lookup, if it is made. The first failure is rethrown
    and ends the loop, so `made` lookups reached `fetch`; otherwise every
    lookup was made and the results line up with the outcomes.
   */
  method SettleEach<B>(outcomes: seq<FetchOutcome<B>>) returns (made: nat, result: Result<seq<B>, JsError>)
    ensures made <= |outcomes|
    ensures forall i :: 0 <= i < made - 1 ==> Settle(outcomes[i]).Ok?
    ensures result.Ok? ==>
              && made == |outcomes| == |result.value|
              && forall i :: 0 <= i < made ==> Settle(outcomes[i]) == Ok(result.value[i])
    ensures result.Err? ==> made > 0 && Settle(outcomes[made - 1]) == Err(result.error)
  {
    var results: seq<B> := [];
    made := 0;
    while made < |outcomes|
      invariant made <= |outcomes|
      invariant |results| == made
      invariant forall i :: 0 <= i < made ==> Settle(outcomes[i]) == Ok(results[i])
    {
      var settled := Settle(outcomes[made]);
      if settled.Err? {
        made := made + 1;
        result := Err(settled.error);
        return;
      }
      results := results + [settled.value];
      made := made + 1;
    }
    result := Ok(results);
  }

  /**
    The `deposit` resource: one `getDeposit` per id, in order, awaiting each
    before the next, with the session's token; `outcomes[i]` is what `fetch`
    answers the i-th lookup. The first failure is rethrown and ends the
    lookups; otherwise the results line up with the ids.
   */
  method ReadDeposits<B>(param: DepositIdParam, keys: map<string, string>, sessionId: Option<string>, env: Env,
                         outcomes: seq<FetchOutcome<B>>)
    returns (requests: seq<HttpRequest>, result: Result<seq<B>, JsError>)
    requires |outcomes| == |IdsOf(param)|
    ensures |requests| <= |IdsOf(param)|
    ensures forall i :: 0 <= i < |requests| ==>
              requests[i] == GetDepositRequest(IdsOf(param)[i], Some(ResolveToken(keys, sessionId, env.apiKey)), Some(env.apiUrl))
    ensures forall i :: 0 <= i < |requests| - 1 ==> Settle(outcomes[i]).Ok?
    ensures result.Ok? ==>
              && |requests| == |IdsOf(param)| == |result.value|
              && forall i :: 0 <= i < |requests| ==> Settle(outcomes[i]) == Ok(result.value[i])
    ensures result.Err? ==> |requests| > 0 && Settle(outcomes[|requests| - 1]) == Err(result.error)
    ensures param.OneId? ==>
              && |requests| == 1
              && requests[0] == GetDepositRequest(param.id, Some(ResolveToken(keys, sessionId, env.apiKey)), Some(env.apiUrl))
    ensures param.OneId? && result.Ok? ==> |result.value| == 1
  {
    var ids := IdsOf(param);
    var token := Some(ResolveToken(keys, sessionId, env.apiKey));
    var url := Some(env.apiUrl);
    var all := seq(|ids|, i requires 0 <= i < |ids| => GetDepositRequest(ids[i], token, url));
    var made;
    made, result := SettleEach(outcomes);
    requests := all[..made];
  }

}
