/**
  The pawaPay client functions: the request descriptor each one hands to
  `fetch` (method, URL, headers, body) and the way each one settles once
  `fetch` has answered. `fetch` itself and JSON parsing are not modelled: the
  answer arrives as a `FetchOutcome`, whose parsed body is opaque.
 */
module PawaPay {
  import opened JsValues
  import Decimal

  datatype Method = Get | Post

  /** One entry of the `headers` record, in insertion order. */
  datatype Header = Header(name: string, value: string)

  // The DepositRequest interface; `string | null` fields are optional strings.
  datatype Payer = Payer(kind: Option<string>, address: Option<string>)

  datatype MetadataField = MetadataField(fieldName: Option<string>, fieldValue: Option<string>, isPII: Option<bool>)

  datatype DepositRequest = DepositRequest(
    depositId: Option<string>,
    amount: Option<string>,
    currency: Option<string>,
    country: Option<string>,
    correspondent: Option<string>,
    payer: Payer,
    customerTimestamp: Option<string>,
    statementDescription: Option<string>,
    preAuthorisationCode: Option<string>,
    metadata: Option<seq<MetadataField>>)

  /** What `JSON.stringify` is applied to for the two POST requests. */
  datatype Body = PredictBody(msisdn: string) | DepositBody(deposit: DepositRequest)

  datatype HttpRequest = HttpRequest(verb: Method, url: string, headers: seq<Header>, body: Option<Body>)

  /** Which pawaPay operation a request descriptor calls, with its argument. */
  datatype Operation =
    | ActiveConfOp
    | AvailabilityOp
    | PredictOp(msisdn: string)
    | SendDepositOp(deposit: DepositRequest)
    | GetDepositOp(depositId: string)

  const ActiveConfPath := "/active-conf"
  const AvailabilityPath := "/availability"
  const PredictPath := "/v1/predict-correspondent"
  const DepositsPath := "/deposits"
  const DepositPrefix := "/deposits/"
  const BearerPrefix := "Bearer "
  const HttpErrorPrefix := "HTTP error! status: "

  /** The value of the first header called `name`, if any. */
  function HeaderValue(headers: seq<Header>, name: string): Option<string> {
    if |headers| == 0 then None
    else if headers[0].name == name then Some(headers[0].value)
    else HeaderValue(headers[1..], name)
  }

  /** A record cannot hold one key twice. */
  predicate DistinctNames(headers: seq<Header>) {
    forall i, j :: 0 <= i < j < |headers| ==> headers[i].name != headers[j].name
  }

  /**
    The `headers` record every client function builds: `Content-Type` always,
    and `Authorization` only when the bearer token is truthy.
   */
  function BuildHeaders(bearer: Option<string>): (h: seq<Header>)
    ensures DistinctNames(h)
    ensures HeaderValue(h, "Content-Type") == Some("application/json")
    ensures TruthyString(bearer) ==> HeaderValue(h, "Authorization") == Some(BearerPrefix + bearer.value)
    ensures !TruthyString(bearer) ==> HeaderValue(h, "Authorization") == None
  {
    [Header("Content-Type", "application/json")]
      + (if TruthyString(bearer) then [Header("Authorization", BearerPrefix + bearer.value)] else [])
  }

  /** The token a request presents, read back from its `Authorization` header. */
  function BearerOf(req: HttpRequest): Option<string> {
    match HeaderValue(req.headers, "Authorization")
    case None => None
    case Some(v) => if StartsWith(v, BearerPrefix) then Some(v[|BearerPrefix|..]) else None
  }

  /**
    The pawaPay operation a request descriptor calls against base URL
    `apiUrl`, recovered from its method, path and body alone.
   */
  function OperationOf(apiUrl: Option<string>, req: HttpRequest): Option<Operation> {
    var base := Concatenated(apiUrl);
    if !StartsWith(req.url, base) then None
    else
      var path := req.url[|base|..];
      match req.verb
      case Get =>
        if req.body.Some? then None
        else if path == ActiveConfPath then Some(ActiveConfOp)
        else if path == AvailabilityPath then Some(AvailabilityOp)
        else if StartsWith(path, DepositPrefix) then Some(GetDepositOp(path[|DepositPrefix|..]))
        else None
      case Post =>
        if path == PredictPath && req.body.Some? && req.body.value.PredictBody? then
          Some(PredictOp(req.body.value.msisdn))
        else if path == DepositsPath && req.body.Some? && req.body.value.DepositBody? then
          Some(SendDepositOp(req.body.value.deposit))
        else None
  }

  /** `getActiveConf`: GET `apiUrl + '/active-conf'`. */
  function ActiveConfRequest(bearer: Option<string>, apiUrl: Option<string>): (r: HttpRequest)
    ensures OperationOf(apiUrl, r) == Some(ActiveConfOp)
    ensures r.headers == BuildHeaders(bearer)
    ensures BearerOf(r) == (if TruthyString(bearer) then bearer else None)
    ensures HeaderValue(r.headers, "Content-Type") == Some("application/json")
  {
    var r := HttpRequest(Get, Concatenated(apiUrl) + ActiveConfPath, BuildHeaders(bearer), None);
    BearerRoundTrip(bearer);
    assert r.url[|Concatenated(apiUrl)|..] == ActiveConfPath;
    r
  }

  /** `getCorrespondentAvailability`: GET `apiUrl + '/availability'`, never authorised. */
  function AvailabilityRequest(apiUrl: Option<string>): (r: HttpRequest)
    ensures OperationOf(apiUrl, r) == Some(AvailabilityOp)
    ensures r.headers == BuildHeaders(None)
    ensures HeaderValue(r.headers, "Authorization") == None
    ensures HeaderValue(r.headers, "Content-Type") == Some("application/json")
  {
    var r := HttpRequest(Get, Concatenated(apiUrl) + AvailabilityPath, BuildHeaders(None), None);
    assert r.url[|Concatenated(apiUrl)|..] == AvailabilityPath;
    r
  }

  /** `getCorrespondentPredict`: POST `apiUrl + '/v1/predict-correspondent'` with body `{msisdn}`. */
  function PredictRequest(msisdn: string, bearer: Option<string>, apiUrl: Option<string>): (r: HttpRequest)
    ensures OperationOf(apiUrl, r) == Some(PredictOp(msisdn))
    ensures r.headers == BuildHeaders(bearer)
    ensures BearerOf(r) == (if TruthyString(bearer) then bearer else None)
    ensures HeaderValue(r.headers, "Content-Type") == Some("application/json")
  {
    var r := HttpRequest(Post, Concatenated(apiUrl) + PredictPath, BuildHeaders(bearer), Some(PredictBody(msisdn)));
    BearerRoundTrip(bearer);
    assert r.url[|Concatenated(apiUrl)|..] == PredictPath;
    r
  }

  /** `sendDeposit`: POST `apiUrl + '/deposits'` with the deposit as body. */
  function SendDepositRequest(deposit: DepositRequest, bearer: Option<string>, apiUrl: Option<string>): (r: HttpRequest)
    ensures OperationOf(apiUrl, r) == Some(SendDepositOp(deposit))
    ensures r.headers == BuildHeaders(bearer)
    ensures BearerOf(r) == (if TruthyString(bearer) then bearer else None)
    ensures HeaderValue(r.headers, "Content-Type") == Some("application/json")
  {
    var r := HttpRequest(Post, Concatenated(apiUrl) + DepositsPath, BuildHeaders(bearer), Some(DepositBody(deposit)));
    BearerRoundTrip(bearer);
    assert r.url[|Concatenated(apiUrl)|..] == DepositsPath;
    r
  }

  /** `getDeposit`: GET `apiUrl + '/deposits/' + depositId`. */
  function GetDepositRequest(depositId: string, bearer: Option<string>, apiUrl: Option<string>): (r: HttpRequest)
    ensures OperationOf(apiUrl, r) == Some(GetDepositOp(depositId))
    ensures r.headers == BuildHeaders(bearer)
    ensures BearerOf(r) == (if TruthyString(bearer) then bearer else None)
    ensures HeaderValue(r.headers, "Content-Type") == Some("application/json")
  {
    var r := HttpRequest(Get, Concatenated(apiUrl) + DepositPrefix + depositId, BuildHeaders(bearer), None);
    BearerRoundTrip(bearer);
    var path := r.url[|Concatenated(apiUrl)|..];
    assert path == DepositPrefix + depositId;
    assert path[1] == 'd';
    r
  }

  /** The token a request presents is the caller's token exactly when that token is truthy. */
  lemma BearerRoundTrip(bearer: Option<string>)
    ensures BearerOf(HttpRequest(Get, "", BuildHeaders(bearer), None)) == (if TruthyString(bearer) then bearer else None)
    ensures forall m, u, b :: BearerOf(HttpRequest(m, u, BuildHeaders(bearer), b)) == BearerOf(HttpRequest(Get, "", BuildHeaders(bearer), None))
  {
  }

  /** What `fetch` gave back: a response with a parsed (or unparsable) body, or a rejection. */
  datatype FetchOutcome<B> =
    | Responded(ok: bool, status: nat, json: Result<B, JsError>)
    | Failed(error: JsError)

  /** The message of the error thrown for a non-ok response. */
  function HttpErrorMessage(status: nat): string {
    HttpErrorPrefix + Decimal.Render(status)
  }

  /** The status an HTTP error message reports, if it is one. */
  function StatusOf(message: string): Option<nat> {
    if StartsWith(message, HttpErrorPrefix) then Decimal.Parse(message[|HttpErrorPrefix|..]) else None
  }

  /**
    How every client function settles after `fetch`: a non-ok response throws
    an HTTP error naming the status; an ok response yields its parsed body;
    every failure on the way (rejected `fetch`, unparsable body) is rethrown
    unchanged.
   */
  function Settle<B>(outcome: FetchOutcome<B>): (r: Result<B, JsError>)
    ensures r.Ok? <==> outcome.Responded? && outcome.ok && outcome.json.Ok?
    ensures r.Ok? ==> r.value == outcome.json.value
    ensures outcome.Responded? && !outcome.ok ==> r.Err? && StatusOf(r.error.message) == Some(outcome.status)
    ensures outcome.Failed? ==> r == Err(outcome.error)
    ensures outcome.Responded? && outcome.ok && outcome.json.Err? ==> r == outcome.json
  {
    match outcome
    case Failed(e) => Err(e)
    case Responded(ok, status, json) =>
      if !ok then
        var msg := HttpErrorMessage(status);
        assert msg[|HttpErrorPrefix|..] == Decimal.Render(status);
        Decimal.ParseRender(status);
        Err(JsError(msg))
      else json
  }
}
