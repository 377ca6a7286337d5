# pawaPay MCP server: session registry, routing and request building

This project is a Dafny model of the core of an MCP server that exposes the
pawaPay payments API as tools and resources over Server-Sent Events (SSE).

The SSE server keeps two plain objects keyed by session id:
- `transports` maps a session id to its live SSE transport.
- `keyArray` maps a session id to the API key the client put in the `key` query parameter of `GET /sse`.

Opening a stream fills both objects. The stream's `close` event purges both. A `POST /messages?sessionId=…` goes to the transport stored under that id, or gets `400 No transport found for sessionId`. Each tool then picks its token: the session's key if it is truthy, else the process-wide `PAWAPAY_API_KEY`. It then builds a pawaPay request (method, URL, headers, body) for `fetch`.

Modules, one per concern:
- `JsValues` (`js_values.dfy`): the JavaScript rules the code relies on.
  - optional values and truthiness;
  - the `toString()` of an Express query value (a string, an array of strings or an object), which throws for an object whose own `toString` is not callable;
  - the property key such a value becomes when it indexes an object (`undefined` becomes `"undefined"`).
- `Decimal` (`decimal.dfy`): how a template literal prints an HTTP status, and the parse that reads it back.
- `PawaPay` (`pawapay.dfy`): the request descriptors of `getActiveConf`, `getCorrespondentAvailability`, `getCorrespondentPredict`, `sendDeposit` and `getDeposit`, and how each one settles once `fetch` has answered (`Settle`). Two independent readers serve as partners of the builders:
  - `OperationOf` recovers the called operation and its argument from a descriptor;
  - `BearerOf` recovers the token from the `Authorization` header.
- `Sessions` (`sessions.dfy`): the two maps as one immutable `Registry`, with `Open`, `Close` and `Route` as pure transitions. It also replays whole histories of stream events (`Replay`) and relates the result to an independent definition of which streams are live.
- `Tools` (`tools.dfy`): token resolution, the deposit the `deposit` tool builds, the request each tool sends, the end-to-end path from a POST to a pawaPay request (`Serve`), and the loop of the `deposit` resource over several ids (`ReadDeposits`).

Facts about the code that shape the model:
- A new session is stored by plain assignment, with no duplicate check. Freshness of the id is a precondition of `Sessions.Open`, because the transport mints a new id for every stream.
- The code keeps two parallel objects, not one object of records. The model keeps two maps and proves that the key map's domain stays inside the transport map's domain.
- A key is stored only when the query value is truthy. A missing key and an empty `?key=` leave no entry. A repeated parameter, or `?key[]=`, gives an array. An array is truthy even when its text is empty, so `?key[]=` stores `""`. Token resolution then falls back to the default, because the stored key is falsy.
- A bracketed `?key[toString]=x` gives an object whose own `toString` is a string. Calling it at src/index.ts:44 throws after line 43 has stored the transport and before line 45 registers the `close` listener. The rejection of this `async` handler is unhandled. On Node 15 and later, by default, that ends the process. If the process survives it (an older Node, or `--unhandled-rejections=warn`), the transport stays registered after its stream closes. `Sessions.Replay` models that case, and `Sessions.UnprintableKeyOutlivesClose` exhibits it.

## Model

| member | source | states |
|---|---|---|
| Sessions.Open | src/index.ts:41-44 | the new session's transport is stored under its id. The id holds a key exactly when the `key` query value is truthy and its `toString()` succeeds, and the key is that text. Every other entry of both maps is unchanged, and "keys ⊆ sessions" is preserved |
| Sessions.OpenFault | src/index.ts:44-45 | the GET /sse handler throws exactly when the `key` value is truthy and no key can be stored, because its `toString` is not callable. It then stops before registering the `close` listener |
| Sessions.Close | src/index.ts:45-48 | the id leaves both maps in one step; every other entry of both maps keeps its value; "keys ⊆ sessions" is preserved |
| Sessions.CloseIdempotent | src/index.ts:45-48 | closing an id a second time changes nothing |
| Sessions.CloseUnknownIsNoOp | src/index.ts:45-48 | closing an id that is not live leaves the registry as it was |
| Sessions.CloseUndoesOpen | src/index.ts:41-48 | opening a fresh session and then closing it restores the registry exactly |
| Sessions.Route | src/index.ts:52-60 | corrected router: a message goes to its session's own transport exactly when its session id coerces to a key that has a transport. Every other message, including one whose id cannot be coerced, gets 400 and "No transport found for sessionId". It never faults |
| Sessions.RouteAfterOpen | src/index.ts:42-56 | right after open, messages for the new id reach the new transport |
| Sessions.RouteAfterClose | src/index.ts:45-58 | after close, messages for that id get 400, and messages whose id coerces to any other key route as before |
| Sessions.RouteAsWritten | src/index.ts:52-60 | as written, an id object whose own `toString` is not callable makes the coercion throw. An id named like an inherited Object.prototype member, with no session of that name, throws a TypeError instead of getting 400. Every other id gets what `Sessions.Route` answers. Whenever it dispatches, it dispatches where `Sessions.Route` does |
| Sessions.InheritedNameEscapesRejection | src/index.ts:53-58 | with no session open, `sessionId=constructor` and `sessionId[toString]=x` fault as written, but get 400 from the corrected router |
| Sessions.Replay | src/index.ts:41-48 | over any history of opens (with never-reused ids) and closes, the keys stay a subset of the live sessions, and every live session was opened at some point. A close purges an id only if its open registered a `close` listener |
| Sessions.ReplayLive | src/index.ts:41-48 | after any history, an id is a live session exactly when a stream with that id was opened and is still registered: not closed since, or opened by a handler that threw before registering its `close` listener |
| Sessions.ReplayKeys | src/index.ts:43-47 | after any history, an id holds a key exactly when its live stream was opened with a truthy `key` whose text could be taken, and the key is that text |
| Sessions.RouteAfterHistory | src/index.ts:52-60 | after any history, a message for an id is rejected exactly when no stream with that id is open (never opened, or already closed) |
| Sessions.UnprintableKeyOutlivesClose | src/index.ts:41-48 | if the process survives the unhandled rejection, a stream opened with `?key[toString]=x` stays registered after its close, while the same stream opened with a printable key is gone |
| Tools.ResolveToken | src/index.ts:100-103 | the token is the process default unless the request has a truthy session id whose stored key is truthy, in which case it is that key |
| Tools.TokenAfterOpen | src/index.ts:100-103 | for a freshly opened session, the token is its own key when that key was stored and is non-empty. Otherwise the token is the default |
| Tools.TokenOfOtherSession | src/index.ts:100-103 | opening one session does not change the token any other session resolves |
| Tools.TokenAfterClose | src/index.ts:100-103 | after close, the session's id resolves to the default token |
| Tools.TokenAfterHistory | src/index.ts:100-103 | after any history of opens and closes, a live session whose open stored a non-empty key resolves to that key. A session never opened, closed, or opened without a stored key resolves to the default |
| Tools.ToolRequest | src/index.ts:94-186 | the URL string, method and body each tool hands to `fetch` spell its intended pawaPay operation (read back by `OperationOf`), with a JSON content type. Every tool except `correspondentAvailability` sends `Authorization: Bearer <token>` exactly when the resolved token is non-empty, and no `Authorization` header otherwise. `correspondentAvailability` never sends one |
| Tools.CredentialUniform | src/index.ts:100-182 | `activeConf`, `correspondentPredict`, `deposit` and `depositStatus` present the same credential for the same session and default |
| Tools.AvailabilityIgnoresSession | src/index.ts:124-132 | the `correspondentAvailability` request does not depend on the session or its key, and carries no token |
| Tools.BuildDeposit | src/index.ts:146-162 | the built deposit carries exactly the tool's arguments: the copied fields, an `MSISDN` payer with address `msisdn`, `statementDescription` = `description`, no pre-authorisation code, no metadata. The caller's timestamp is its customer timestamp |
| Tools.DepositRoundTrip | src/index.ts:146-162 | every deposit of that shape is the one built from the arguments it carries |
| Tools.Serve | src/index.ts:52-60 | built on the corrected router `Sessions.Route`. A POST whose session id has no live transport, or cannot be coerced, is refused with 400 and yields no pawaPay request; as written, some of these throw instead (see Findings). A POST for a live session yields the tool's request, with the token resolved for the session id in the tool's context |
| Tools.ServeSessionPrecedence | src/index.ts:100-103 | when the tool's context carries the id the message was routed by, a live session's non-empty key is the bearer token, and the default is used otherwise |
| Tools.ServeDefaultKeyScenario | src/index.ts:41-60 | a session opened without a key is served with the default key, and is refused with 400 once closed |
| Tools.ServeSessionKeyScenario | src/index.ts:41-60 | a session opened with key "abc" is served with token "abc" |
| Tools.ReadDeposits | src/index.ts:70-86 | the `deposit` resource looks up the ids one at a time, in input order, with the resolved token. Each lookup is `getDeposit` of that id. On success the results line up with the ids. The first failure is rethrown, and no lookup follows it. A single id makes exactly one lookup, of that id, and yields one result on success |
| Tools.SettleEach | src/index.ts:77-86 | awaits the lookups one at a time, in order, each settling on its own `fetch` answer. On success every lookup was made and the results line up with them. Otherwise exactly the lookups up to the first failure were made, all earlier ones succeeded, and that failure is rethrown |
| PawaPay.BuildHeaders | src/pawapay.ts:90-96 | the headers always include `Content-Type: application/json`; `Authorization` is present exactly when the token is truthy, and its value is `"Bearer " + token`; no header name repeats |
| PawaPay.BearerRoundTrip | src/pawapay.ts:94-96 | the token read back from the headers is the caller's token when truthy, and nothing otherwise |
| PawaPay.ActiveConfRequest | src/pawapay.ts:88-101 | the URL string handed to `fetch` spells `GET apiUrl + '/active-conf'`. The headers are exactly those of `BuildHeaders` for the token: JSON content type, and `Authorization` exactly when the token is truthy |
| PawaPay.AvailabilityRequest | src/pawapay.ts:115-125 | the URL string handed to `fetch` spells `GET apiUrl + '/availability'`. The headers are those of `BuildHeaders` with no token: JSON content type and never an `Authorization` header |
| PawaPay.PredictRequest | src/pawapay.ts:139-153 | the URL string handed to `fetch` spells `POST apiUrl + '/v1/predict-correspondent'` with body `{msisdn}`. The headers are exactly those of `BuildHeaders` for the token |
| PawaPay.SendDepositRequest | src/pawapay.ts:167-181 | the URL string handed to `fetch` spells `POST apiUrl + '/deposits'` with the deposit as body. The headers are exactly those of `BuildHeaders` for the token |
| PawaPay.GetDepositRequest | src/pawapay.ts:195-208 | the URL string handed to `fetch` spells `GET apiUrl + '/deposits/' + depositId`, and the id reads back from it intact. The headers are exactly those of `BuildHeaders` for the token |
| PawaPay.Settle | src/pawapay.ts:103-112 | succeeds exactly when the response is ok and its body parsed, yielding that body. A non-ok response throws an error whose message (`HttpErrorMessage`) reads back as the response status. A rejected `fetch` or an unparsable body is rethrown unchanged |
| Decimal.ParseRender | src/pawapay.ts:104 | the status `Decimal.Render` prints into "HTTP error! status: N" reads back as the same number |
| Decimal.RenderParse | src/pawapay.ts:104 | every status text the parse accepts is exactly how `Decimal.Render` prints that number, so the parse takes no leading zeros |
| JsValues.ToText | src/index.ts:44 | `toString()` of a query value: a string gives itself, a one-element array its element, a plain object `[object Object]`. It throws exactly for an object whose own `toString` is not callable |
| JsValues.PropertyKey | src/index.ts:53-54 | the key a query value becomes when it indexes an object: `undefined` becomes "undefined", and any other value becomes its `toString()` text. The coercion throws exactly when that call would |

## Left out

- `fetch`, `response.json()` and `JSON.stringify` are not modelled. A `fetch` answer is an abstract `FetchOutcome`: a response with `ok`, `status` and a parsed body (or a parse error), or a rejection. The parsed bodies are opaque, because the source casts them with `as` and never checks them. For the same reason, the `ActiveConf`, `DepositResponse`, `AvailabilityResponse` and `PredictCorrespondentResponse` interfaces have no datatypes.
- Express, `SSEServerTransport` and `McpServer` internals are foreign library calls. This covers how session ids are minted, `handlePostMessage`, `server.connect`, and how the SDK fills `ctx.sessionId`. Transports are opaque handles, and ids are opaque strings.
- Tools.Serve: the session id in the tool's context is a parameter. That it equals the id the message was routed by is an assumption about the SDK, not a fact of this code, because one shared `McpServer` is connected to every transport (src/index.ts:24 and :49). `Tools.ServeSessionPrecedence` states the precedence under that assumption only.
- Query strings are taken to be parsed by Express 4's default extended parser (`qs` with prototype keys allowed). Under a simple parser a value is only ever a string or an array of strings, and the objects modelled by `QueryValue.Nested` cannot arise.
- `fetch` parses the URL string it is handed, and that parsing is not modelled. The ids are concatenated without encoding, so a `transactionId` such as `../active-conf`, or one containing `?` or `#`, reaches a different endpoint or query than the path it spells.
- Tools.ToolRequest: the intended operation is read back from the URL string, not from the endpoint `fetch` resolves it to (see the line above).
- PawaPay.GetDepositRequest: the id reads back from the URL string, not from the resolved URL (see the line above).
- Asynchronous interleaving of downstream calls with opens and closes is not modelled. Each handler is one atomic step on the maps.
- `console.log`/`console.error`, the zod environment parsing with its defaults, `app.listen` and the `GET /` greeting are left out. `DateTime.now()` is replaced by a timestamp parameter.
- `src/index-stdio.ts` and `src/lettscore.ts` are not part of this model. They hold no session state, and the bearer-header rule of `lettscore.ts` is the one modelled for pawaPay.
- The `echo` prompt template is left out; it is only string interpolation.
- The resource's response wrapping (`uri.href` and `JSON.stringify(results)`) is left out. The `deposit://{depositId}` template matching belongs to the SDK.
- Query values nested deeper than one level are not modelled (arrays of objects, and arrays the query parser turns into objects past its size limit). A bracketed parameter is modelled as one object, whose text is `[object Object]` unless it has its own `toString`.
- The rejected promise of a handler that throws is not modelled past the fault itself. Express 4 ignores it, so it is an unhandled rejection. On Node 15 and later, by default, that ends the process. Otherwise, a GET /sse handler that throws never calls `server.connect`, and its response stays open.
- Sessions.Replay: assumes the process survives an unhandled rejection (Node before 15, or `--unhandled-rejections=warn`), so a history goes on after an `OpenFault`. Under Node's default the process exits at the fault, and the history ends there. `Sessions.UnprintableKeyOutlivesClose` describes only the surviving case.
- Sessions.Open: a duplicate id is excluded by precondition. As written, it would overwrite the transport and keep any stale key. The id generator is relied on instead.
- Sessions.RouteAsWritten: only the router's inherited-property lookup is modelled. The same lookup on `keyArray` is not modelled, because `ctx.sessionId` is taken to be a minted id. Storing a transport under `"__proto__"` would change the object's prototype; this is not modelled either, for the same reason.
- Decimal.Render: prints non-negative integers only, which covers every HTTP status `fetch` reports.

## Findings

| source | as written | input that shows it | evidently intended | confidence | as-written member | corrected member |
|---|---|---|---|---|---|---|
| src/index.ts:52-60 | `transports[sessionId]` indexes a plain object literal, so names that Object.prototype defines (`constructor`, `__proto__`, `toString`, …) find a truthy inherited member; `transport.handlePostMessage` is then not a function and the async handler rejects with a TypeError. An id object with its own `toString` makes the key coercion itself throw. Express 4 leaves the rejection unhandled, so on Node 15 and later the default makes the whole server process exit | `POST /messages?sessionId=constructor` or `POST /messages?sessionId[toString]=x` with no such session | every id without a live session is answered with 400 "No transport found for sessionId" (an own-property lookup of a string id) | high for the lookup semantics; not executed | Sessions.RouteAsWritten | Sessions.Route |
