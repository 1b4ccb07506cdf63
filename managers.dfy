/** The transport wrapper: `RequestManager` reads the configuration, builds
    the three authentication headers and turns the outcome of one HTTP call
    into a decoded body or an exception. The HTTP call itself is a
    parameter: its `Outcome`. */
module Managers {
  import opened Php
  import opened Exceptions

  datatype Verb = GET | POST | PATCH | PUT | DELETE

  /** `config('gigapay.*')`, read afresh by every call. */
  datatype Config = Config(serverUrl: Scalar, token: Scalar, integrationId: Scalar, lang: Scalar)

  /** A request as it is handed to the HTTP client: the client's headers and,
      when given, the options array (`form_params` or `json`). */
  datatype Request = Request(verb: Verb, url: string, headers: seq<(string, Value)>, options: Option<Value>)

  /** What the HTTP call did. */
  datatype Outcome =
    | Responded(body: Value)                      // a 2xx answer, its body decoded
    | Rejected(body: Value, reason: string)       // a BadResponseException carrying a response
    | RejectedWithoutResponse(reason: string)     // a BadResponseException without one
    | Failed(reason: string)                      // any other exception

  /** What a call can throw: a plain `Exception` with a message, a
      `GigapayException` (its `getJson()` and `getMessage()`), or a PHP Error
      raised by the engine itself. */
  datatype Failure =
    | Thrown(message: string)
    | Gigapay(json: Value, message: string)
    | EngineError(message: string)

  const EnvMessage := "Please set up .env file"

  /** `setUpClient`'s precondition: token, integration id and language are
      all truthy. */
  predicate Configured(cfg: Config)
  {
    Truthy(cfg.token) && Truthy(cfg.integrationId) && Truthy(cfg.lang)
  }

  function Headers(cfg: Config): (hs: seq<(string, Value)>)
    ensures |hs| == 3
    ensures hs[0] == ("Authorization", Str("Token " + ScalarString(cfg.token)))
    ensures hs[1] == ("Integration-Id", cfg.integrationId)
    ensures hs[2] == ("Accept-Language", cfg.lang)
  {
    [("Authorization", Str("Token " + ScalarString(cfg.token))),
     ("Integration-Id", cfg.integrationId),
     ("Accept-Language", cfg.lang)]
  }

  /** The options handed to the client: `$params` when it is truthy. */
  function Options(params: Value): (o: Option<Value>)
    ensures o.Some? <==> Truthy(params)
    ensures o.Some? ==> o.value == params
  {
    if Truthy(params) then Some(params) else None
  }

  /** The request `getData` issues, if any: none without configuration;
      the options only when `$params` is truthy. */
  function Sent(cfg: Config, verb: Verb, url: string, params: Value): (s: Option<Request>)
    ensures s.None? <==> !Configured(cfg)
    ensures s.Some? ==> s.value.verb == verb && s.value.url == url && s.value.headers == Headers(cfg)
    ensures s.Some? ==> (s.value.options.Some? <==> Truthy(params))
    ensures s.Some? && s.value.options.Some? ==> s.value.options.value == params
  {
    if Configured(cfg) then
      Some(Request(verb, url, Headers(cfg), Options(params)))
    else None
  }

  /** The exception the catch blocks turn an outcome into, or the body. */
  function Classify(outcome: Outcome): (r: Result<Value, Failure>)
    ensures r.Ok? <==> outcome.Responded?
    ensures outcome.Responded? ==> r.value == outcome.body
    ensures outcome.Rejected? && r.error.Gigapay? ==> r.error.json == outcome.body
    ensures (outcome.RejectedWithoutResponse? || outcome.Failed?) ==> r == Err(Thrown(outcome.reason))
  {
    match outcome
    case Responded(body) => Ok(body)
    case Rejected(body, _) =>
      (match ExceptionMessage(body)
       case Ok(m) => Err(Gigapay(body, m))
       case Err(e) => Err(EngineError(e)))
    case RejectedWithoutResponse(reason) => Err(Thrown(reason))
    case Failed(reason) => Err(Thrown(reason))
  }

  /** What `getData` returns or throws for a configuration and an outcome. */
  function Response(cfg: Config, outcome: Outcome): (r: Result<Value, Failure>)
    ensures !Configured(cfg) ==> r == Err(Thrown(EnvMessage))
    ensures Configured(cfg) ==> r == Classify(outcome)
  {
    if Configured(cfg) then Classify(outcome) else Err(Thrown(EnvMessage))
  }

  /** A rejected response always becomes a `GigapayException` holding the
      received body, unless flattening its body raises a PHP Error. */
  lemma RejectedKeepsBody(cfg: Config, body: Value, reason: string)
    requires Configured(cfg)
    ensures ExceptionMessage(body).Ok? ==>
      Response(cfg, Rejected(body, reason)) == Err(Gigapay(body, ExceptionMessage(body).value))
    ensures ExceptionMessage(body).Err? ==>
      Response(cfg, Rejected(body, reason)) == Err(EngineError(ExceptionMessage(body).error))
  {
  }

  class RequestManager {
    var token: Value
    var integrationId: Value
    var lang: Value
    /** The headers of the Guzzle client, once it is set up. */
    var client: Option<seq<(string, Value)>>

    constructor ()
      ensures token == Null && integrationId == Null && lang == Null && client == None
    {
      token, integrationId, lang, client := Null, Null, Null, None;
    }

    /** `setUpClient`: copies the three settings, then refuses to go on
        unless all are truthy; otherwise builds the client's headers. */
    method SetUpClient(cfg: Config) returns (ok: bool)
      modifies this
      ensures token == cfg.token && integrationId == cfg.integrationId && lang == cfg.lang
      ensures ok == Configured(cfg)
      ensures client == if ok then Some(Headers(cfg)) else old(client)
    {
      token := cfg.token;
      integrationId := cfg.integrationId;
      lang := cfg.lang;
      if !Truthy(token) || !Truthy(integrationId) || !Truthy(lang) {
        return false;
      }
      client := Some([("Authorization", Str("Token " + ScalarString(cfg.token))),
                      ("Integration-Id", integrationId),
                      ("Accept-Language", lang)]);
      ok := true;
    }

    /** The `catch (ClientException $e)` block: a `GigapayException` built
        from the response body, unless flattening that body raises an Error. */
    method Rethrow(body: Value) returns (f: Failure)
      ensures ExceptionMessage(body).Ok? ==> f == Gigapay(body, ExceptionMessage(body).value)
      ensures ExceptionMessage(body).Err? ==> f == EngineError(ExceptionMessage(body).error)
    {
      var m := ExceptionMessage(body);
      if m.Err? {
        return EngineError(m.error);
      }
      var e := new GigapayException(body);
      f := Gigapay(e.GetJson(), e.message);
    }

    /** `getData($method, $url, $params)`: `sent` is the request handed to
        the client (none when the configuration check throws first). */
    method GetData(cfg: Config, verb: Verb, url: string, params: Value, outcome: Outcome)
      returns (r: Result<Value, Failure>, sent: Option<Request>)
      modifies this
      ensures token == cfg.token && integrationId == cfg.integrationId && lang == cfg.lang
      ensures sent == Sent(cfg, verb, url, params)
      ensures r == Response(cfg, outcome)
    {
      var ok := SetUpClient(cfg);
      if ok {
        var request := Prepare(verb, url, client.value, params);
        sent := Some(request);
        r := Receive(outcome);
      } else {
        r, sent := Err(Thrown(EnvMessage)), None;
      }
    }

    /** `$this->client->request($method, $url, $params)` when the params are
        truthy, `request($method, $url)` otherwise. */
    method Prepare(verb: Verb, url: string, headers: seq<(string, Value)>, params: Value) returns (request: Request)
      ensures request == Request(verb, url, headers, Options(params))
    {
      if Truthy(params) {
        request := Request(verb, url, headers, Some(params));
      } else {
        request := Request(verb, url, headers, None);
      }
    }

    /** The `try` block around the client's request and its two `catch`
        blocks: the decoded body, or the exception they throw. */
    method Receive(outcome: Outcome) returns (r: Result<Value, Failure>)
      ensures r == Classify(outcome)
    {
      match outcome
      case Responded(body) =>
        r := Ok(body);
      case Rejected(body, _) =>
        var f := Rethrow(body);
        r := Err(f);
      case RejectedWithoutResponse(reason) =>
        r := Err(Thrown(reason));
      case Failed(reason) =>
        r := Err(Thrown(reason));
    }
  }

  /** `new RequestManager()` followed by `getData`, as every resource does. */
  method Call(cfg: Config, verb: Verb, url: string, params: Value, outcome: Outcome)
    returns (r: Result<Value, Failure>, sent: Option<Request>)
    ensures sent == Sent(cfg, verb, url, params)
    ensures r == Response(cfg, outcome)
  {
    var manager := new RequestManager();
    r, sent := manager.GetData(cfg, verb, url, params, outcome);
  }

  /** `['form_params' => $params]` */
  function FormParams(params: seq<(Key, Value)>): Value
  {
    Arr([(StrKey("form_params"), Arr(params))])
  }

  /** `['json' => $params]` */
  function JsonBody(params: Value): Value
  {
    Arr([(StrKey("json"), params)])
  }

  /** The options arrays the resources pass are never empty, so they are
      always forwarded. */
  lemma OptionsAreForwarded(cfg: Config, verb: Verb, url: string, params: seq<(Key, Value)>, body: Value)
    requires Configured(cfg)
    ensures Sent(cfg, verb, url, FormParams(params)).value.options == Some(FormParams(params))
    ensures Sent(cfg, verb, url, JsonBody(body)).value.options == Some(JsonBody(body))
  {
  }
}
