/** The on-premise access gateway of app.py: `call_destination`.

    The network is a parameter: `net.send` gives the reply to every request the gateway
    could issue, and the gateway's result records the requests it actually issued, in
    order.  The process environment is the map of bound services with their credential
    dictionaries.  Python's exceptions inside a `try` become the stage's
    `(message, status)` result; a dictionary lookup outside a `try` lets its `KeyError`
    escape the function, which the model records as `Uncaught`. */
module Gateway {
  import opened Wrappers

  newtype byte = x: int | 0 <= x < 256

  /** A JSON object whose values are strings, as the credential and destination
      records are. */
  type Dict = map<string, string>

  /** The JSON values the gateway looks at: a string or an object of strings. */
  datatype Json = JStr(s: string) | JObj(fields: Dict)

  /** What `response.json()` yields: a parse error, or the top-level object. */
  datatype JsonDoc = Malformed(err: string) | Doc(fields: map<string, Json>)

  datatype Response = Response(json: JsonDoc, content: seq<byte>)

  /** The outcome of one call into `requests`: it raises, or a response comes back. */
  datatype Reply = Raised(err: string) | Answered(response: Response)

  type Headers = seq<(string, string)>

  datatype Request =
    | Post(url: string, headers: Headers, auth: (string, string))
    | Get(url: string, headers: Headers, basicAuth: Option<(string, string)>,
          proxy: Option<string>, stream: bool)

  /** The network, as the replies it gives to each request. */
  datatype Network = Network(send: Request -> Reply)

  /** The cloud environment: bound service name to its credentials. */
  datatype Env = Env(services: map<string, Dict>)

  /** The exceptions the stages can raise. */
  datatype Exc =
    | KeyError(key: string)
    | TypeError(text: string)
    | AttributeError(text: string)
    | LibraryError(text: string)

  /** Python's `str(err)`; a `KeyError` shows its key quoted. */
  function Str(e: Exc): (s: string)
    ensures e.KeyError? ==>
      |s| == |e.key| + 2 && s[0] == '\'' && s[|s| - 1] == '\'' && s[1..|s| - 1] == e.key
    ensures !e.KeyError? ==> s == e.text
  {
    match e
    case KeyError(k) => "'" + k + "'"
    case TypeError(t) => t
    case AttributeError(t) => t
    case LibraryError(t) => t
  }

  /** The result of `call_destination`: a `(message, status)` tuple, the buffered
      content, the streaming response object, or an exception that escapes. */
  datatype Outcome =
    | Error(msg: string, code: int)
    | Body(bytes: seq<byte>)
    | Stream(response: Response)
    | Uncaught(exc: Exc)

  /** A call's outcome, the requests it issued in order, and the redacted diagnostic
      copy of the destination record when one was made. */
  datatype Call = Call(outcome: Outcome, sent: seq<Request>, diagnostic: Option<Dict>)

  /** The result of one stage: its value, or the exception it raised; either way with
      the requests it issued. */
  datatype Stage<T> = Done(value: T, sent: seq<Request>) | Failed(exc: Exc, sent: seq<Request>)

  const UaaService := "uaa"
  const DestinationService := "destination"
  const ConnectivityService := "connectivity"

  const TokenPath := "/oauth/token?grant_type=client_credentials"
  const DestinationsPath := "/destination-configuration/v1/destinations/"
  const Protected := "--protected--"

  const NoServiceText := "'NoneType' object has no attribute 'credentials'"
  const ConcatDictText := "can only concatenate str (not \"dict\") to str"
  const AssignStrText := "'str' object does not support item assignment"

  const ServicesMsg := "Required services not found! Without services / credentials it will be impossible to succeed! Exception:"
  // The four stage messages (app.py:62, 76, 90, 120), which share their first words
  // and differ in the next one.
  const SomethingWrong := "Something wrong "
  const DestTokenMsg := SomethingWrong + "getting" + " JWT from xsuaa service for the destination service. Exception: "
  const LookupMsg := SomethingWrong + "reading" + " data from the destination service: "
  const ConnTokenMsg := SomethingWrong + "posting" + " data for the connectivity service. Exception: "
  const FetchMsg := SomethingWrong + "when" + " accessing on-premise resource. Exception: "

  /** The client-credentials token request sent for a credential record. */
  function TokenRequest(url: string, clientId: string, clientSecret: string): Request
  {
    Post(url, [("Accept", "application/json")], (clientId, clientSecret))
  }

  /** `'Bearer ' + jwt`, which raises when the token is not a string. */
  function Bearer(jwt: Json): (h: Option<string>)
    ensures h.Some? <==> jwt.JStr?
    ensures h.Some? ==> h.value == "Bearer " + jwt.s && "Bearer " <= h.value
  {
    match jwt
    case JStr(s) => Some("Bearer " + s)
    case JObj(_) => None
  }

  /** The token a reply carries under `access_token`, if it carries one. */
  function TokenOf(reply: Reply): Option<Json>
  {
    if reply.Answered? && reply.response.json.Doc? && "access_token" in reply.response.json.fields
    then Some(reply.response.json.fields["access_token"])
    else None
  }

  /** The destination record a reply carries under `destinationConfiguration`, if it is
      an object. */
  function ConfigOf(reply: Reply): Option<Dict>
  {
    if reply.Answered? && reply.response.json.Doc? && "destinationConfiguration" in reply.response.json.fields
       && reply.response.json.fields["destinationConfiguration"].JObj?
    then Some(reply.response.json.fields["destinationConfiguration"].fields)
    else None
  }

  /** One client-credentials exchange (app.py:55-60 and 83-88): the same code for both
      tokens, parameterised by the credential record whose client id and secret it
      authenticates with. */
  function ExchangeToken(net: Network, url: string, creds: Dict): (r: Stage<Json>)
    ensures "clientid" !in creds ==> r == Failed(KeyError("clientid"), [])
    ensures "clientid" in creds && "clientsecret" !in creds ==> r == Failed(KeyError("clientsecret"), [])
    ensures "clientid" in creds && "clientsecret" in creds ==>
      r.sent == [TokenRequest(url, creds["clientid"], creds["clientsecret"])]
    ensures |r.sent| <= 1
    ensures r.Done? <==> |r.sent| == 1 && TokenOf(net.send(r.sent[0])).Some?
    ensures r.Done? ==> r.value == TokenOf(net.send(r.sent[0])).value
    // The exception of each failing path after the request was sent.
    ensures |r.sent| == 1 && net.send(r.sent[0]).Raised? ==>
      r.Failed? && r.exc == LibraryError(net.send(r.sent[0]).err)
    ensures |r.sent| == 1 && net.send(r.sent[0]).Answered? && net.send(r.sent[0]).response.json.Malformed? ==>
      r.Failed? && r.exc == LibraryError(net.send(r.sent[0]).response.json.err)
    ensures |r.sent| == 1 && net.send(r.sent[0]).Answered? && net.send(r.sent[0]).response.json.Doc? &&
            "access_token" !in net.send(r.sent[0]).response.json.fields ==>
      r.Failed? && r.exc == KeyError("access_token")
  {
    if "clientid" !in creds then Failed(KeyError("clientid"), [])
    else if "clientsecret" !in creds then Failed(KeyError("clientsecret"), [])
    else
      var req := TokenRequest(url, creds["clientid"], creds["clientsecret"]);
      match net.send(req)
      case Raised(e) => Failed(LibraryError(e), [req])
      case Answered(resp) =>
        match resp.json
        case Malformed(e) => Failed(LibraryError(e), [req])
        case Doc(fields) =>
          if "access_token" !in fields then Failed(KeyError("access_token"), [req])
          else Done(fields["access_token"], [req])
  }

  /** The destination lookup (app.py:69-74): a bearer-authorised GET of the destination's
      configuration; the stage fails when the token is not a string, the call raises,
      the body is not JSON, or `destinationConfiguration` is missing or not an object. */
  function LookupDestination(net: Network, url: string, jwt: Json): (r: Stage<Dict>)
    ensures jwt.JObj? ==> r == Failed(TypeError(ConcatDictText), [])
    ensures jwt.JStr? ==>
      r.sent == [Get(url, [("Accept", "application/json"), ("Authorization", "Bearer " + jwt.s)], None, None, false)]
    ensures r.Done? <==> |r.sent| == 1 && ConfigOf(net.send(r.sent[0])).Some?
    ensures r.Done? ==> r.value == ConfigOf(net.send(r.sent[0])).value
    // The exception of each failing path after the request was sent.
    ensures |r.sent| == 1 && net.send(r.sent[0]).Raised? ==>
      r.Failed? && r.exc == LibraryError(net.send(r.sent[0]).err)
    ensures |r.sent| == 1 && net.send(r.sent[0]).Answered? && net.send(r.sent[0]).response.json.Malformed? ==>
      r.Failed? && r.exc == LibraryError(net.send(r.sent[0]).response.json.err)
    ensures |r.sent| == 1 && net.send(r.sent[0]).Answered? && net.send(r.sent[0]).response.json.Doc? &&
            "destinationConfiguration" !in net.send(r.sent[0]).response.json.fields ==>
      r.Failed? && r.exc == KeyError("destinationConfiguration")
    ensures |r.sent| == 1 && net.send(r.sent[0]).Answered? && net.send(r.sent[0]).response.json.Doc? &&
            "destinationConfiguration" in net.send(r.sent[0]).response.json.fields &&
            net.send(r.sent[0]).response.json.fields["destinationConfiguration"].JStr? ==>
      r.Failed? && r.exc == TypeError(AssignStrText)
  {
    match Bearer(jwt)
    case None => Failed(TypeError(ConcatDictText), [])
    case Some(auth) =>
      var req := Get(url, [("Accept", "application/json"), ("Authorization", auth)], None, None, false);
      match net.send(req)
      case Raised(e) => Failed(LibraryError(e), [req])
      case Answered(resp) =>
        match resp.json
        case Malformed(e) => Failed(LibraryError(e), [req])
        case Doc(fields) =>
          if "destinationConfiguration" !in fields then Failed(KeyError("destinationConfiguration"), [req])
          else match fields["destinationConfiguration"]
            case JStr(_) => Failed(TypeError(AssignStrText), [req])
            case JObj(cfg) => Done(cfg, [req])
  }

  /** `print_version = deepcopy(destination); print_version['Password'] = '--protected--'`. */
  function Redact(cfg: Dict): (d: Dict)
    ensures d.Keys == cfg.Keys + {"Password"}
    ensures d["Password"] == Protected
    ensures forall k :: k in cfg && k != "Password" ==> d[k] == cfg[k]
  {
    cfg["Password" := Protected]
  }

  /** The proxied fetch (app.py:101-117): checks the connectivity token and the
      destination fields while building the request, then issues it. */
  function Fetch(net: Network, url: string, proxy: string, accept: string, jwt: Json,
                 cfg: Dict, stream: bool): (r: Stage<Response>)
    ensures |r.sent| <= 1
    ensures |r.sent| == 1 ==>
      jwt.JStr? && "CloudConnectorLocationId" in cfg && "User" in cfg && "Password" in cfg &&
      r.sent[0] == Get(url, [("Accept", accept), ("Proxy-Authorization", "Bearer " + jwt.s),
                             ("SAP-Connectivity-SCC-Location_ID", cfg["CloudConnectorLocationId"])],
                       Some((cfg["User"], cfg["Password"])), Some(proxy), stream)
    ensures r.Done? <==> |r.sent| == 1 && net.send(r.sent[0]).Answered?
    ensures r.Done? ==> r.value == net.send(r.sent[0]).response
    // The request is built in the order of app.py:103-108, and each missing piece raises.
    ensures jwt.JObj? ==> r == Failed(TypeError(ConcatDictText), [])
    ensures jwt.JStr? && "CloudConnectorLocationId" !in cfg ==> r == Failed(KeyError("CloudConnectorLocationId"), [])
    ensures jwt.JStr? && "CloudConnectorLocationId" in cfg && "User" !in cfg ==> r == Failed(KeyError("User"), [])
    ensures jwt.JStr? && "CloudConnectorLocationId" in cfg && "User" in cfg && "Password" !in cfg ==>
      r == Failed(KeyError("Password"), [])
    ensures jwt.JStr? && "CloudConnectorLocationId" in cfg && "User" in cfg && "Password" in cfg ==> |r.sent| == 1
    ensures |r.sent| == 1 && net.send(r.sent[0]).Raised? ==>
      r.Failed? && r.exc == LibraryError(net.send(r.sent[0]).err)
  {
    match Bearer(jwt)
    case None => Failed(TypeError(ConcatDictText), [])
    case Some(auth) =>
      if "CloudConnectorLocationId" !in cfg then Failed(KeyError("CloudConnectorLocationId"), [])
      else if "User" !in cfg then Failed(KeyError("User"), [])
      else if "Password" !in cfg then Failed(KeyError("Password"), [])
      else
        var req := Get(url, [("Accept", accept), ("Proxy-Authorization", auth),
                             ("SAP-Connectivity-SCC-Location_ID", cfg["CloudConnectorLocationId"])],
                       Some((cfg["User"], cfg["Password"])), Some(proxy), stream);
        match net.send(req)
        case Raised(e) => Failed(LibraryError(e), [req])
        case Answered(resp) => Done(resp, [req])
  }

  /** All three services are bound in the environment. */
  predicate Bound(env: Env)
  {
    UaaService in env.services && ConnectivityService in env.services && DestinationService in env.services
  }

  predicate StartsWith(s: string, prefix: string)
  {
    prefix <= s
  }

  /** The stage prefixes exclude one another on the message `m`. */
  lemma PrefixesExclusive(m: string)
    ensures StartsWith(m, DestTokenMsg) ==>
      !StartsWith(m, LookupMsg) && !StartsWith(m, ConnTokenMsg) && !StartsWith(m, FetchMsg)
    ensures StartsWith(m, LookupMsg) ==> !StartsWith(m, ConnTokenMsg) && !StartsWith(m, FetchMsg)
    ensures StartsWith(m, ConnTokenMsg) ==> !StartsWith(m, FetchMsg)
  {
    assert DestTokenMsg[16] == 'g' && LookupMsg[16] == 'r' && ConnTokenMsg[16] == 'p' && FetchMsg[16] == 'w';
    if StartsWith(m, DestTokenMsg) { assert m[16] == 'g'; }
    if StartsWith(m, LookupMsg) { assert m[16] == 'r'; }
    if StartsWith(m, ConnTokenMsg) { assert m[16] == 'p'; }
  }

  /** No message starts with two of the stage prefixes: they differ at their 17th
      character ("getting", "reading", "posting", "when"), so a 500's message names
      exactly one stage. */
  lemma StagePrefixesDistinct()
    ensures forall m :: StartsWith(m, DestTokenMsg) ==>
      !StartsWith(m, LookupMsg) && !StartsWith(m, ConnTokenMsg) && !StartsWith(m, FetchMsg)
    ensures forall m :: StartsWith(m, LookupMsg) ==> !StartsWith(m, ConnTokenMsg) && !StartsWith(m, FetchMsg)
    ensures forall m :: StartsWith(m, ConnTokenMsg) ==> !StartsWith(m, FetchMsg)
  {
    forall m: string { PrefixesExclusive(m); }
  }

  /** The last two stages (app.py:81-122): the connectivity token, then the proxied
      fetch of the destination's URL + path.  `sent` holds this part's requests only. */
  function Connect(net: Network, tokenUrl: string, conn: Dict, cfg: Dict, path: string,
                   accept: string, stream: bool): (c: Call)
    ensures |c.sent| <= 2 && c.diagnostic.None?
    ensures c.outcome.Error? ==>
      c.outcome.code == 500 && (StartsWith(c.outcome.msg, ConnTokenMsg) || StartsWith(c.outcome.msg, FetchMsg))
    ensures |c.sent| >= 1 ==>
      "clientid" in conn && "clientsecret" in conn &&
      c.sent[0] == TokenRequest(tokenUrl, conn["clientid"], conn["clientsecret"])
    ensures |c.sent| == 2 ==>
      TokenOf(net.send(c.sent[0])).Some? &&
      "onpremise_proxy_host" in conn && "onpremise_proxy_port" in conn &&
      "URL" in cfg && "User" in cfg && "Password" in cfg &&
      c.sent[1].Get? && c.sent[1].url == cfg["URL"] + path &&
      c.sent[1].proxy == Some("http://" + conn["onpremise_proxy_host"] + ":" + conn["onpremise_proxy_port"]) &&
      c.sent[1].basicAuth == Some((cfg["User"], cfg["Password"])) &&
      c.sent[1].stream == stream
    // The fetch is authorised at the proxy with the token of this part's own exchange.
    ensures |c.sent| == 2 ==>
      TokenOf(net.send(c.sent[0])).value.JStr? && "CloudConnectorLocationId" in cfg &&
      c.sent[1].headers == [("Accept", accept),
                            ("Proxy-Authorization", "Bearer " + TokenOf(net.send(c.sent[0])).value.s),
                            ("SAP-Connectivity-SCC-Location_ID", cfg["CloudConnectorLocationId"])]
    ensures c.outcome.Error? && StartsWith(c.outcome.msg, ConnTokenMsg) ==> |c.sent| <= 1
    ensures c.outcome.Error? && StartsWith(c.outcome.msg, FetchMsg) ==> |c.sent| >= 1
    ensures |c.sent| >= 1 && TokenOf(net.send(c.sent[0])).None? ==>
      c.outcome.Error? && StartsWith(c.outcome.msg, ConnTokenMsg)
    ensures |c.sent| == 2 && net.send(c.sent[1]).Raised? ==>
      c.outcome.Error? && StartsWith(c.outcome.msg, FetchMsg)
    ensures c.outcome.Body? || c.outcome.Stream? <==> |c.sent| == 2 && net.send(c.sent[1]).Answered?
    ensures c.outcome.Body? ==> !stream && c.outcome.bytes == net.send(c.sent[1]).response.content
    ensures c.outcome.Stream? ==> stream && c.outcome.response == net.send(c.sent[1]).response
  {
    StagePrefixesDistinct();
    match ExchangeToken(net, tokenUrl, conn)
    case Failed(e, s3) => Call(Error(ConnTokenMsg + Str(e), 500), s3, None)
    case Done(jwtConnectivity, s3) =>
      if "onpremise_proxy_host" !in conn then Call(Uncaught(KeyError("onpremise_proxy_host")), s3, None)
      else if "onpremise_proxy_port" !in conn then Call(Uncaught(KeyError("onpremise_proxy_port")), s3, None)
      else if "URL" !in cfg then Call(Uncaught(KeyError("URL")), s3, None)
      else
        var proxy := "http://" + conn["onpremise_proxy_host"] + ":" + conn["onpremise_proxy_port"];
        match Fetch(net, cfg["URL"] + path, proxy, accept, jwtConnectivity, cfg, stream)
        case Failed(e, s4) => Call(Error(FetchMsg + Str(e), 500), s3 + s4, None)
        case Done(resp, s4) => Call(if stream then Stream(resp) else Body(resp.content), s3 + s4, None)
  }

  /** Connect's result at each branch, in terms of its stages: an exception inside the
      `try` of app.py:83-92 or 101-122 is that stage's 500 carrying `str(e)`, and a
      missing proxy or URL key (app.py:95-98, outside any `try`) escapes. */
  lemma ConnectSteps(net: Network, tokenUrl: string, conn: Dict, cfg: Dict, path: string,
                     accept: string, stream: bool)
    ensures var c, t := Connect(net, tokenUrl, conn, cfg, path, accept, stream), ExchangeToken(net, tokenUrl, conn);
      t.Failed? ==> c == Call(Error(ConnTokenMsg + Str(t.exc), 500), t.sent, None)
    ensures var c, t := Connect(net, tokenUrl, conn, cfg, path, accept, stream), ExchangeToken(net, tokenUrl, conn);
      t.Done? && "onpremise_proxy_host" !in conn ==>
        c == Call(Uncaught(KeyError("onpremise_proxy_host")), t.sent, None)
    ensures var c, t := Connect(net, tokenUrl, conn, cfg, path, accept, stream), ExchangeToken(net, tokenUrl, conn);
      t.Done? && "onpremise_proxy_host" in conn && "onpremise_proxy_port" !in conn ==>
        c == Call(Uncaught(KeyError("onpremise_proxy_port")), t.sent, None)
    ensures var c, t := Connect(net, tokenUrl, conn, cfg, path, accept, stream), ExchangeToken(net, tokenUrl, conn);
      t.Done? && "onpremise_proxy_host" in conn && "onpremise_proxy_port" in conn && "URL" !in cfg ==>
        c == Call(Uncaught(KeyError("URL")), t.sent, None)
    ensures var c, t := Connect(net, tokenUrl, conn, cfg, path, accept, stream), ExchangeToken(net, tokenUrl, conn);
      t.Done? && "onpremise_proxy_host" in conn && "onpremise_proxy_port" in conn && "URL" in cfg ==>
        var proxy := "http://" + conn["onpremise_proxy_host"] + ":" + conn["onpremise_proxy_port"];
        var f := Fetch(net, cfg["URL"] + path, proxy, accept, t.value, cfg, stream);
        c.sent == t.sent + f.sent && c.diagnostic.None? &&
        c.outcome == (if f.Failed? then Error(FetchMsg + Str(f.exc), 500)
                      else if stream then Stream(f.value) else Body(f.value.content))
    ensures var c := Connect(net, tokenUrl, conn, cfg, path, accept, stream);
      c.outcome.Uncaught? ==>
        c.outcome.exc in {KeyError("onpremise_proxy_host"), KeyError("onpremise_proxy_port"), KeyError("URL")}
  {
  }

  /** The failures of Connect's stages raised before their request is sent are 500s of
      that stage with `str(e)` at the end: a missing client id or secret of the
      connectivity service, and, once the token came back and the proxy and `URL` keys
      are present, a token that is not a string or a record without its location, user
      or password.  A missing proxy or `URL` key escapes instead. */
  lemma ConnectBeforeSend(net: Network, tokenUrl: string, conn: Dict, cfg: Dict, path: string,
                          accept: string, stream: bool)
    ensures var c := Connect(net, tokenUrl, conn, cfg, path, accept, stream);
      "clientid" !in conn ==> c == Call(Error(ConnTokenMsg + Str(KeyError("clientid")), 500), [], None)
    ensures var c := Connect(net, tokenUrl, conn, cfg, path, accept, stream);
      "clientid" in conn && "clientsecret" !in conn ==> c == Call(Error(ConnTokenMsg + Str(KeyError("clientsecret")), 500), [], None)
    ensures var c := Connect(net, tokenUrl, conn, cfg, path, accept, stream);
      |c.sent| >= 1 && TokenOf(net.send(c.sent[0])).Some? ==>
        var jwt := TokenOf(net.send(c.sent[0])).value;
        (c.outcome == Uncaught(KeyError("onpremise_proxy_host")) <==> "onpremise_proxy_host" !in conn) &&
        (c.outcome == Uncaught(KeyError("onpremise_proxy_port")) <==>
           "onpremise_proxy_host" in conn && "onpremise_proxy_port" !in conn) &&
        (c.outcome == Uncaught(KeyError("URL")) <==>
           "onpremise_proxy_host" in conn && "onpremise_proxy_port" in conn && "URL" !in cfg) &&
        ("onpremise_proxy_host" in conn && "onpremise_proxy_port" in conn && "URL" in cfg ==>
          (jwt.JObj? ==> c.outcome == Error(FetchMsg + ConcatDictText, 500) && |c.sent| == 1) &&
          (jwt.JStr? && "CloudConnectorLocationId" !in cfg ==>
             c.outcome == Error(FetchMsg + Str(KeyError("CloudConnectorLocationId")), 500) && |c.sent| == 1) &&
          (jwt.JStr? && "CloudConnectorLocationId" in cfg && "User" !in cfg ==>
             c.outcome == Error(FetchMsg + Str(KeyError("User")), 500) && |c.sent| == 1) &&
          (jwt.JStr? && "CloudConnectorLocationId" in cfg && "User" in cfg && "Password" !in cfg ==>
             c.outcome == Error(FetchMsg + Str(KeyError("Password")), 500) && |c.sent| == 1))
  {
    ConnectSteps(net, tokenUrl, conn, cfg, path, accept, stream);
  }

  /** The first two stages (app.py:53-78), the destination token and the destination
      lookup with its redacted copy, followed by Connect. */
  function Resolve(net: Network, tokenUrl: string, dest: Dict, conn: Dict, name: string,
                   path: string, accept: string, stream: bool): (c: Call)
    ensures |c.sent| <= 4
    ensures c.outcome.Error? ==>
      c.outcome.code == 500 && (StartsWith(c.outcome.msg, DestTokenMsg) || StartsWith(c.outcome.msg, LookupMsg) ||
       StartsWith(c.outcome.msg, ConnTokenMsg) || StartsWith(c.outcome.msg, FetchMsg))
    ensures |c.sent| >= 1 ==>
      "clientid" in dest && "clientsecret" in dest &&
      c.sent[0] == TokenRequest(tokenUrl, dest["clientid"], dest["clientsecret"])
    ensures |c.sent| >= 2 ==>
      TokenOf(net.send(c.sent[0])).Some? &&
      "uri" in dest && c.sent[1].Get? && c.sent[1].url == dest["uri"] + DestinationsPath + name
    ensures |c.sent| >= 3 ==>
      ConfigOf(net.send(c.sent[1])).Some? &&
      c.sent[2..] == Connect(net, tokenUrl, conn, ConfigOf(net.send(c.sent[1])).value, path, accept, stream).sent
    ensures c.outcome.Error? && StartsWith(c.outcome.msg, DestTokenMsg) ==> |c.sent| <= 1 && c.diagnostic.None?
    ensures c.outcome.Error? && StartsWith(c.outcome.msg, LookupMsg) ==> |c.sent| in {1, 2} && c.diagnostic.None?
    ensures |c.sent| >= 1 && TokenOf(net.send(c.sent[0])).None? ==>
      c.outcome.Error? && StartsWith(c.outcome.msg, DestTokenMsg)
    ensures |c.sent| >= 2 && ConfigOf(net.send(c.sent[1])).None? ==>
      c.outcome.Error? && StartsWith(c.outcome.msg, LookupMsg)
    ensures c.outcome.Body? || c.outcome.Stream? ==> |c.sent| >= 3
    ensures |c.sent| >= 3 ==>
      c.outcome == Connect(net, tokenUrl, conn, ConfigOf(net.send(c.sent[1])).value, path, accept, stream).outcome
    ensures c.diagnostic.Some? ==>
      |c.sent| >= 2 && ConfigOf(net.send(c.sent[1])).Some? &&
      c.diagnostic.value == Redact(ConfigOf(net.send(c.sent[1])).value)
    ensures |c.sent| >= 3 ==> c.diagnostic.Some?
  {
    match ExchangeToken(net, tokenUrl, dest)
    case Failed(e, s1) => PrefixesExclusive(DestTokenMsg + Str(e)); Call(Error(DestTokenMsg + Str(e), 500), s1, None)
    case Done(jwtDestination, s1) =>
      if "uri" !in dest then Call(Uncaught(KeyError("uri")), s1, None)
      else
        match LookupDestination(net, dest["uri"] + DestinationsPath + name, jwtDestination)
        case Failed(e, s2) =>
          PrefixesExclusive(LookupMsg + Str(e));
          assert |s1| == 1 && (s1 + s2)[0] == s1[0];
          Call(Error(LookupMsg + Str(e), 500), s1 + s2, None)
        case Done(cfg, s2) =>
          var rest := Connect(net, tokenUrl, conn, cfg, path, accept, stream);
          PrefixesExclusive(if rest.outcome.Error? then rest.outcome.msg else "");
          var sent := s1 + s2 + rest.sent;
          assert |s1| == 1 && |s2| == 1;
          assert sent[0] == s1[0] && sent[1] == s2[0] && sent[2..] == rest.sent;
          Call(rest.outcome, sent, Some(Redact(cfg)))
  }

  /** Resolve's result at each branch, in terms of its stages: an exception inside the
      `try` of app.py:55-64 or 69-78 is that stage's 500 carrying `str(e)`, a missing
      `uri` (app.py:67, outside any `try`) escapes, and a successful lookup hands the
      destination record to Connect and keeps its redacted copy. */
  lemma ResolveSteps(net: Network, tokenUrl: string, dest: Dict, conn: Dict, name: string,
                     path: string, accept: string, stream: bool)
    ensures var c, t := Resolve(net, tokenUrl, dest, conn, name, path, accept, stream), ExchangeToken(net, tokenUrl, dest);
      t.Failed? ==> c == Call(Error(DestTokenMsg + Str(t.exc), 500), t.sent, None)
    ensures var c, t := Resolve(net, tokenUrl, dest, conn, name, path, accept, stream), ExchangeToken(net, tokenUrl, dest);
      t.Done? && "uri" !in dest ==> c == Call(Uncaught(KeyError("uri")), t.sent, None)
    ensures var c, t := Resolve(net, tokenUrl, dest, conn, name, path, accept, stream), ExchangeToken(net, tokenUrl, dest);
      t.Done? && "uri" in dest ==>
        var l := LookupDestination(net, dest["uri"] + DestinationsPath + name, t.value);
        (l.Failed? ==> c == Call(Error(LookupMsg + Str(l.exc), 500), t.sent + l.sent, None)) &&
        (l.Done? ==>
          var k := Connect(net, tokenUrl, conn, l.value, path, accept, stream);
          c == Call(k.outcome, t.sent + l.sent + k.sent, Some(Redact(l.value))))
    ensures var c := Resolve(net, tokenUrl, dest, conn, name, path, accept, stream);
      c.outcome.Uncaught? ==>
        c.outcome.exc in {KeyError("uri"), KeyError("onpremise_proxy_host"), KeyError("onpremise_proxy_port"), KeyError("URL")}
  {
    var t := ExchangeToken(net, tokenUrl, dest);
    if t.Done? && "uri" in dest {
      var l := LookupDestination(net, dest["uri"] + DestinationsPath + name, t.value);
      if l.Done? {
        ConnectSteps(net, tokenUrl, conn, l.value, path, accept, stream);
      }
    }
  }

  /** `call_destination(destination, path, env, requestContentType, stream)`. */
  function CallDestination(destination: string, path: Option<string>, env: Option<Env>,
                           accept: string, stream: bool, net: Network): (c: Call)
    // The input guard, in order, before anything else happens.
    ensures destination == "" ==> c == Call(Error("Destination not found", 400), [], None)
    ensures destination != "" && path.None? ==> c == Call(Error("Path not found", 400), [], None)
    ensures destination != "" && path.Some? && env.None? ==>
      c == Call(Error("Environment object is not forwarded", 400), [], None)
    // A missing service binding is a 503 before any request.
    ensures c.outcome.Error? && c.outcome.code == 503 <==>
      destination != "" && path.Some? && env.Some? && !Bound(env.value)
    ensures c.outcome.Error? && c.outcome.code == 503 ==>
      c == Call(Error(ServicesMsg + NoServiceText, 503), [], None)
    ensures c.outcome.Error? ==> c.outcome.code in {400, 500, 503}
    // Every stage failure is a 500 carrying its stage's message.
    ensures c.outcome.Error? && c.outcome.code == 500 ==>
      StartsWith(c.outcome.msg, DestTokenMsg) || StartsWith(c.outcome.msg, LookupMsg) ||
      StartsWith(c.outcome.msg, ConnTokenMsg) || StartsWith(c.outcome.msg, FetchMsg)
    // At most four requests; each is issued only once its predecessor succeeded.
    ensures |c.sent| <= 4
    ensures |c.sent| >= 1 ==> destination != "" && path.Some? && env.Some? && Bound(env.value)
    ensures |c.sent| >= 2 ==> TokenOf(net.send(c.sent[0])).Some?
    ensures |c.sent| >= 3 ==> ConfigOf(net.send(c.sent[1])).Some?
    ensures |c.sent| == 4 ==> TokenOf(net.send(c.sent[2])).Some?
    // Both token requests go to the uaa token URL, with different client credentials.
    ensures |c.sent| >= 1 ==>
      var uaa := env.value.services[UaaService];
      var dest := env.value.services[DestinationService];
      "url" in uaa && "clientid" in dest && "clientsecret" in dest &&
      c.sent[0] == TokenRequest(uaa["url"] + TokenPath, dest["clientid"], dest["clientsecret"])
    ensures |c.sent| >= 3 ==>
      var uaa := env.value.services[UaaService];
      var conn := env.value.services[ConnectivityService];
      "clientid" in conn && "clientsecret" in conn &&
      c.sent[2] == TokenRequest(uaa["url"] + TokenPath, conn["clientid"], conn["clientsecret"])
    // The destination lookup URL.
    ensures |c.sent| >= 2 ==>
      var dest := env.value.services[DestinationService];
      "uri" in dest && c.sent[1].Get? && c.sent[1].url == dest["uri"] + DestinationsPath + destination
    // The fetch: destination URL + path, through the connectivity proxy, authenticated
    // with the destination's real (unredacted) user and password.
    ensures |c.sent| == 4 ==>
      var conn := env.value.services[ConnectivityService];
      var cfg := ConfigOf(net.send(c.sent[1])).value;
      "onpremise_proxy_host" in conn && "onpremise_proxy_port" in conn &&
      "URL" in cfg && "User" in cfg && "Password" in cfg &&
      c.sent[3].Get? && c.sent[3].url == cfg["URL"] + path.value &&
      c.sent[3].proxy == Some("http://" + conn["onpremise_proxy_host"] + ":" + conn["onpremise_proxy_port"]) &&
      c.sent[3].basicAuth == Some((cfg["User"], cfg["Password"])) &&
      c.sent[3].stream == stream
    // Success is exactly a fourth request that was answered; `stream` picks the result.
    ensures c.outcome.Body? || c.outcome.Stream? <==> |c.sent| == 4 && net.send(c.sent[3]).Answered?
    ensures c.outcome.Body? ==> !stream && c.outcome.bytes == net.send(c.sent[3]).response.content
    ensures c.outcome.Stream? ==> stream && c.outcome.response == net.send(c.sent[3]).response
    // The diagnostic copy is the redacted destination record.
    ensures c.diagnostic.Some? ==>
      |c.sent| >= 2 && ConfigOf(net.send(c.sent[1])).Some? &&
      c.diagnostic.value == Redact(ConfigOf(net.send(c.sent[1])).value)
    ensures |c.sent| >= 3 ==> c.diagnostic.Some?
  {
    StagePrefixesDistinct();
    if destination == "" then Call(Error("Destination not found", 400), [], None)
    else if path.None? then Call(Error("Path not found", 400), [], None)
    else if env.None? then Call(Error("Environment object is not forwarded", 400), [], None)
    else if !Bound(env.value) then
      Call(Error(ServicesMsg + Str(AttributeError(NoServiceText)), 503), [], None)
    else
      var uaa := env.value.services[UaaService];
      var conn := env.value.services[ConnectivityService];
      var dest := env.value.services[DestinationService];
      if "url" !in uaa then Call(Uncaught(KeyError("url")), [], None)
      else
        var c := Resolve(net, uaa["url"] + TokenPath, dest, conn, destination, path.value, accept, stream);
        ResolveTail(net, uaa["url"] + TokenPath, dest, conn, destination, path.value, accept, stream);
        c
  }

  /** The guard passed, the three services are bound and the uaa record has its `url`:
      from here on `call_destination` talks to the network. */
  predicate Ready(destination: string, path: Option<string>, env: Option<Env>)
  {
    destination != "" && path.Some? && env.Some? && Bound(env.value) && "url" in env.value.services[UaaService]
  }

  /** The token URL both exchanges post to (app.py:53-54 and 81-82). */
  function TokenUrl(env: Env): string
    requires UaaService in env.services && "url" in env.services[UaaService]
  {
    env.services[UaaService]["url"] + TokenPath
  }

  /** `call_destination`'s result at every branch after the guard, in terms of its five
      stages: an exception inside a `try` is that stage's 500 whose message ends in
      `str(e)`; a missing `url`, `uri`, proxy host, proxy port or `URL` (read outside any
      `try`) escapes as `Uncaught`; once the lookup succeeded the diagnostic copy is the
      redacted record, whatever happens afterwards. */
  lemma CallDestinationSteps(destination: string, path: Option<string>, env: Option<Env>,
                             accept: string, stream: bool, net: Network)
    ensures var c := CallDestination(destination, path, env, accept, stream, net);
      destination != "" && path.Some? && env.Some? && Bound(env.value) && "url" !in env.value.services[UaaService] ==>
        c == Call(Uncaught(KeyError("url")), [], None)
    ensures var c := CallDestination(destination, path, env, accept, stream, net);
      Ready(destination, path, env) ==>
        var t1 := ExchangeToken(net, TokenUrl(env.value), env.value.services[DestinationService]);
        t1.Failed? ==> c == Call(Error(DestTokenMsg + Str(t1.exc), 500), t1.sent, None)
    ensures var c := CallDestination(destination, path, env, accept, stream, net);
      Ready(destination, path, env) ==>
        var dest := env.value.services[DestinationService];
        var t1 := ExchangeToken(net, TokenUrl(env.value), dest);
        t1.Done? && "uri" !in dest ==> c == Call(Uncaught(KeyError("uri")), t1.sent, None)
    ensures var c := CallDestination(destination, path, env, accept, stream, net);
      Ready(destination, path, env) ==>
        var dest := env.value.services[DestinationService];
        var t1 := ExchangeToken(net, TokenUrl(env.value), dest);
        t1.Done? && "uri" in dest ==>
          var l := LookupDestination(net, dest["uri"] + DestinationsPath + destination, t1.value);
          l.Failed? ==> c == Call(Error(LookupMsg + Str(l.exc), 500), t1.sent + l.sent, None)
    ensures var c := CallDestination(destination, path, env, accept, stream, net);
      Ready(destination, path, env) ==>
        var dest, conn := env.value.services[DestinationService], env.value.services[ConnectivityService];
        var t1 := ExchangeToken(net, TokenUrl(env.value), dest);
        t1.Done? && "uri" in dest ==>
          var l := LookupDestination(net, dest["uri"] + DestinationsPath + destination, t1.value);
          l.Done? ==>
            var k := Connect(net, TokenUrl(env.value), conn, l.value, path.value, accept, stream);
            c == Call(k.outcome, t1.sent + l.sent + k.sent, Some(Redact(l.value)))
  {
    if Ready(destination, path, env) {
      var dest, conn := env.value.services[DestinationService], env.value.services[ConnectivityService];
      ResolveSteps(net, TokenUrl(env.value), dest, conn, destination, path.value, accept, stream);
    }
  }

  /** Once the lookup succeeded, the rest of the call is Connect on the looked-up record:
      its outcome, its requests from the third on, and the redacted copy. */
  lemma CallDestinationAfterLookup(destination: string, path: Option<string>, env: Option<Env>,
                                   accept: string, stream: bool, net: Network)
    ensures var c := CallDestination(destination, path, env, accept, stream, net);
      |c.sent| >= 2 && ConfigOf(net.send(c.sent[1])).Some? ==>
        var cfg := ConfigOf(net.send(c.sent[1])).value;
        var k := Connect(net, TokenUrl(env.value), env.value.services[ConnectivityService], cfg, path.value, accept, stream);
        c.outcome == k.outcome && c.sent[2..] == k.sent && c.diagnostic == Some(Redact(cfg))
  {
    CallDestinationSteps(destination, path, env, accept, stream, net);
    var c := CallDestination(destination, path, env, accept, stream, net);
    if |c.sent| >= 2 {
      var dest := env.value.services[DestinationService];
      var t1 := ExchangeToken(net, TokenUrl(env.value), dest);
      var l := LookupDestination(net, dest["uri"] + DestinationsPath + destination, t1.value);
      assert c.sent[1] == l.sent[0];
    }
  }

  /** The lookup GET of app.py:70-71. */
  function LookupRequest(url: string, jwt: string): Request
  {
    Get(url, [("Accept", "application/json"), ("Authorization", "Bearer " + jwt)], None, None, false)
  }

  /** The proxied GET of app.py:103-116. */
  function FetchRequest(cfg: Dict, path: string, proxy: string, accept: string, jwt: string, stream: bool): Request
    requires "URL" in cfg && "CloudConnectorLocationId" in cfg && "User" in cfg && "Password" in cfg
  {
    Get(cfg["URL"] + path, [("Accept", accept), ("Proxy-Authorization", "Bearer " + jwt),
                            ("SAP-Connectivity-SCC-Location_ID", cfg["CloudConnectorLocationId"])],
        Some((cfg["User"], cfg["Password"])), Some(proxy), stream)
  }

  /** Every key `call_destination` reads is present and every reply is usable: both
      token replies carry a string `access_token`, the lookup reply a configuration with
      `URL`, `CloudConnectorLocationId`, `User` and `Password`, and the proxied GET is
      answered.  Each request is the one built from the replies before it. */
  ghost predicate HappyPath(destination: string, path: Option<string>, env: Option<Env>,
                            accept: string, stream: bool, net: Network)
  {
    && Ready(destination, path, env)
    && var dest, conn := env.value.services[DestinationService], env.value.services[ConnectivityService];
    && "clientid" in dest && "clientsecret" in dest && "uri" in dest
    && "clientid" in conn && "clientsecret" in conn && "onpremise_proxy_host" in conn && "onpremise_proxy_port" in conn
    && var jwt1 := TokenOf(net.send(TokenRequest(TokenUrl(env.value), dest["clientid"], dest["clientsecret"])));
    && jwt1.Some? && jwt1.value.JStr?
    && var cfg := ConfigOf(net.send(LookupRequest(dest["uri"] + DestinationsPath + destination, jwt1.value.s)));
    && cfg.Some? && "URL" in cfg.value && "CloudConnectorLocationId" in cfg.value && "User" in cfg.value && "Password" in cfg.value
    && var jwt3 := TokenOf(net.send(TokenRequest(TokenUrl(env.value), conn["clientid"], conn["clientsecret"])));
    && jwt3.Some? && jwt3.value.JStr?
    && var proxy := "http://" + conn["onpremise_proxy_host"] + ":" + conn["onpremise_proxy_port"];
    && net.send(FetchRequest(cfg.value, path.value, proxy, accept, jwt3.value.s, stream)).Answered?
  }

  /** On the happy path the call issues exactly the four requests, in order, and returns
      the on-premise response: its content, or the response itself when streaming. */
  lemma CallDestinationSucceeds(destination: string, path: Option<string>, env: Option<Env>,
                                accept: string, stream: bool, net: Network)
    requires HappyPath(destination, path, env, accept, stream, net)
    ensures var c := CallDestination(destination, path, env, accept, stream, net);
      var dest, conn := env.value.services[DestinationService], env.value.services[ConnectivityService];
      var r1 := TokenRequest(TokenUrl(env.value), dest["clientid"], dest["clientsecret"]);
      var r2 := LookupRequest(dest["uri"] + DestinationsPath + destination, TokenOf(net.send(r1)).value.s);
      var cfg := ConfigOf(net.send(r2)).value;
      var r3 := TokenRequest(TokenUrl(env.value), conn["clientid"], conn["clientsecret"]);
      var proxy := "http://" + conn["onpremise_proxy_host"] + ":" + conn["onpremise_proxy_port"];
      var r4 := FetchRequest(cfg, path.value, proxy, accept, TokenOf(net.send(r3)).value.s, stream);
      c.sent == [r1, r2, r3, r4] &&
      c.outcome == (if stream then Stream(net.send(r4).response) else Body(net.send(r4).response.content)) &&
      c.diagnostic == Some(Redact(cfg))
  {
    var dest, conn := env.value.services[DestinationService], env.value.services[ConnectivityService];
    var tokenUrl := TokenUrl(env.value);
    var r1 := TokenRequest(tokenUrl, dest["clientid"], dest["clientsecret"]);
    var t1 := ExchangeToken(net, tokenUrl, dest);
    assert t1.Done? && t1.sent == [r1] && t1.value == TokenOf(net.send(r1)).value;
    var r2 := LookupRequest(dest["uri"] + DestinationsPath + destination, t1.value.s);
    var l := LookupDestination(net, dest["uri"] + DestinationsPath + destination, t1.value);
    assert l.Done? && l.sent == [r2] && l.value == ConfigOf(net.send(r2)).value;
    CallDestinationSteps(destination, path, env, accept, stream, net);
    ConnectSteps(net, tokenUrl, conn, l.value, path.value, accept, stream);
  }

  /** Conversely, a call that returns the on-premise response was on the happy path. */
  lemma CallDestinationSuccessNeeds(destination: string, path: Option<string>, env: Option<Env>,
                                    accept: string, stream: bool, net: Network)
    ensures var c := CallDestination(destination, path, env, accept, stream, net);
      c.outcome.Body? || c.outcome.Stream? ==> HappyPath(destination, path, env, accept, stream, net)
  {
    var c := CallDestination(destination, path, env, accept, stream, net);
    if c.outcome.Body? || c.outcome.Stream? {
      var dest, conn := env.value.services[DestinationService], env.value.services[ConnectivityService];
      var tokenUrl := TokenUrl(env.value);
      CallDestinationSteps(destination, path, env, accept, stream, net);
      var t1 := ExchangeToken(net, tokenUrl, dest);
      var l := LookupDestination(net, dest["uri"] + DestinationsPath + destination, t1.value);
      ConnectSteps(net, tokenUrl, conn, l.value, path.value, accept, stream);
    }
  }

  /** Which stage failed, read off a 500: none of the later requests was issued, and a
      request whose reply is unusable ends the call with its own stage's message. */
  lemma CallDestinationStages(destination: string, path: Option<string>, env: Option<Env>,
                              accept: string, stream: bool, net: Network)
    // Which stage's failure produced a 500: none of the later requests was issued.
    ensures var c := CallDestination(destination, path, env, accept, stream, net);
      c.outcome.Error? && c.outcome.code == 500 && StartsWith(c.outcome.msg, DestTokenMsg) ==> |c.sent| <= 1 && c.diagnostic.None?
    ensures var c := CallDestination(destination, path, env, accept, stream, net);
      c.outcome.Error? && c.outcome.code == 500 && StartsWith(c.outcome.msg, LookupMsg) ==> |c.sent| in {1, 2} && c.diagnostic.None?
    ensures var c := CallDestination(destination, path, env, accept, stream, net);
      c.outcome.Error? && c.outcome.code == 500 && StartsWith(c.outcome.msg, ConnTokenMsg) ==> |c.sent| in {2, 3}
    ensures var c := CallDestination(destination, path, env, accept, stream, net);
      c.outcome.Error? && c.outcome.code == 500 && StartsWith(c.outcome.msg, FetchMsg) ==> |c.sent| in {3, 4}
    // A request whose reply is unusable ends the call with that stage's 500.
    ensures var c := CallDestination(destination, path, env, accept, stream, net);
      |c.sent| >= 1 && TokenOf(net.send(c.sent[0])).None? ==>
        c.outcome.Error? && c.outcome.code == 500 && StartsWith(c.outcome.msg, DestTokenMsg)
    ensures var c := CallDestination(destination, path, env, accept, stream, net);
      |c.sent| >= 2 && ConfigOf(net.send(c.sent[1])).None? ==>
        c.outcome.Error? && c.outcome.code == 500 && StartsWith(c.outcome.msg, LookupMsg)
    ensures var c := CallDestination(destination, path, env, accept, stream, net);
      |c.sent| >= 3 && TokenOf(net.send(c.sent[2])).None? ==>
        c.outcome.Error? && c.outcome.code == 500 && StartsWith(c.outcome.msg, ConnTokenMsg)
    ensures var c := CallDestination(destination, path, env, accept, stream, net);
      |c.sent| == 4 && net.send(c.sent[3]).Raised? ==>
        c.outcome.Error? && c.outcome.code == 500 && StartsWith(c.outcome.msg, FetchMsg)
  {
    if destination != "" && path.Some? && env.Some? && Bound(env.value) {
      var uaa := env.value.services[UaaService];
      if "url" in uaa {
        var conn := env.value.services[ConnectivityService];
        var dest := env.value.services[DestinationService];
        ResolveTail(net, uaa["url"] + TokenPath, dest, conn, destination, path.value, accept, stream);
      }
    }
  }

  /** The failures the destination stages raise before their own request is sent (a
      missing client id or secret, a destination token that is not a string) are still
      inside the stage's `try`, so they are its 500, with `str(e)` at the end of the
      message; and a successful lookup always leaves the redacted copy behind. */
  lemma DestinationStagesBeforeSend(destination: string, path: Option<string>, env: Option<Env>,
                                    accept: string, stream: bool, net: Network)
    ensures var c := CallDestination(destination, path, env, accept, stream, net);
      Ready(destination, path, env) && "clientid" !in env.value.services[DestinationService] ==>
        c == Call(Error(DestTokenMsg + Str(KeyError("clientid")), 500), [], None)
    ensures var c := CallDestination(destination, path, env, accept, stream, net);
      Ready(destination, path, env) && "clientid" in env.value.services[DestinationService] &&
      "clientsecret" !in env.value.services[DestinationService] ==>
        c == Call(Error(DestTokenMsg + Str(KeyError("clientsecret")), 500), [], None)
    ensures var c := CallDestination(destination, path, env, accept, stream, net);
      |c.sent| >= 1 && TokenOf(net.send(c.sent[0])).Some? && TokenOf(net.send(c.sent[0])).value.JObj? &&
      "uri" in env.value.services[DestinationService] ==>
        c.outcome == Error(LookupMsg + ConcatDictText, 500) && |c.sent| == 1
    ensures var c := CallDestination(destination, path, env, accept, stream, net);
      |c.sent| >= 2 && ConfigOf(net.send(c.sent[1])).Some? ==>
        c.diagnostic == Some(Redact(ConfigOf(net.send(c.sent[1])).value))
  {
    CallDestinationSteps(destination, path, env, accept, stream, net);
    if Ready(destination, path, env) {
      var dest := env.value.services[DestinationService];
      var t1 := ExchangeToken(net, TokenUrl(env.value), dest);
      var c := CallDestination(destination, path, env, accept, stream, net);
      if t1.Done? && "uri" in dest {
        assert c.sent[0] == t1.sent[0];
        var l := LookupDestination(net, dest["uri"] + DestinationsPath + destination, t1.value);
        if l.Done? {
          assert c.sent[1] == l.sent[0];
        }
      }
    }
  }

  /** The same for the connectivity stages: a missing client id or secret of the
      connectivity service, a connectivity token that is not a string, and a destination
      record without its location, user or password are 500s of their stage. */
  lemma ConnectivityStagesBeforeSend(destination: string, path: Option<string>, env: Option<Env>,
                                     accept: string, stream: bool, net: Network)
    ensures var c := CallDestination(destination, path, env, accept, stream, net);
      |c.sent| >= 2 && ConfigOf(net.send(c.sent[1])).Some? && "clientid" !in env.value.services[ConnectivityService] ==>
        c.outcome == Error(ConnTokenMsg + Str(KeyError("clientid")), 500) && |c.sent| == 2
    ensures var c := CallDestination(destination, path, env, accept, stream, net);
      |c.sent| >= 2 && ConfigOf(net.send(c.sent[1])).Some? && "clientid" in env.value.services[ConnectivityService] &&
      "clientsecret" !in env.value.services[ConnectivityService] ==>
        c.outcome == Error(ConnTokenMsg + Str(KeyError("clientsecret")), 500) && |c.sent| == 2
    ensures var c := CallDestination(destination, path, env, accept, stream, net);
      |c.sent| >= 3 && TokenOf(net.send(c.sent[2])).Some? ==>
        var conn, cfg, jwt := env.value.services[ConnectivityService], ConfigOf(net.send(c.sent[1])).value,
                              TokenOf(net.send(c.sent[2])).value;
        "onpremise_proxy_host" in conn && "onpremise_proxy_port" in conn && "URL" in cfg ==>
          (jwt.JObj? ==> c.outcome == Error(FetchMsg + ConcatDictText, 500) && |c.sent| == 3) &&
          (jwt.JStr? && "CloudConnectorLocationId" !in cfg ==>
             c.outcome == Error(FetchMsg + Str(KeyError("CloudConnectorLocationId")), 500) && |c.sent| == 3) &&
          (jwt.JStr? && "CloudConnectorLocationId" in cfg && "User" !in cfg ==>
             c.outcome == Error(FetchMsg + Str(KeyError("User")), 500) && |c.sent| == 3) &&
          (jwt.JStr? && "CloudConnectorLocationId" in cfg && "User" in cfg && "Password" !in cfg ==>
             c.outcome == Error(FetchMsg + Str(KeyError("Password")), 500) && |c.sent| == 3)
  {
    CallDestinationAfterLookup(destination, path, env, accept, stream, net);
    var c := CallDestination(destination, path, env, accept, stream, net);
    if |c.sent| >= 2 && ConfigOf(net.send(c.sent[1])).Some? {
      var cfg := ConfigOf(net.send(c.sent[1])).value;
      var conn := env.value.services[ConnectivityService];
      var k := Connect(net, TokenUrl(env.value), conn, cfg, path.value, accept, stream);
      ConnectBeforeSend(net, TokenUrl(env.value), conn, cfg, path.value, accept, stream);
      assert |c.sent| >= 3 ==> c.sent[2] == k.sent[0];
    }
  }

  /** Exactly the dictionary lookups outside any `try` let their `KeyError` escape: the
      uaa `url`, the destination service's `uri`, the connectivity proxy's host and port,
      and the record's `URL`; the last three only after the third request. */
  lemma CallDestinationUncaught(destination: string, path: Option<string>, env: Option<Env>,
                                accept: string, stream: bool, net: Network)
    ensures var c := CallDestination(destination, path, env, accept, stream, net);
      c.outcome.Uncaught? ==>
        c.outcome.exc in {KeyError("url"), KeyError("uri"), KeyError("onpremise_proxy_host"),
                          KeyError("onpremise_proxy_port"), KeyError("URL")}
    ensures var c := CallDestination(destination, path, env, accept, stream, net);
      c.outcome.Uncaught? && c.outcome.exc != KeyError("url") && c.outcome.exc != KeyError("uri") ==> |c.sent| == 3
  {
    CallDestinationAfterLookup(destination, path, env, accept, stream, net);
    if Ready(destination, path, env) {
      var dest, conn := env.value.services[DestinationService], env.value.services[ConnectivityService];
      ResolveSteps(net, TokenUrl(env.value), dest, conn, destination, path.value, accept, stream);
      var t1 := ExchangeToken(net, TokenUrl(env.value), dest);
      if t1.Done? && "uri" in dest {
        var l := LookupDestination(net, dest["uri"] + DestinationsPath + destination, t1.value);
        if l.Done? {
          ConnectSteps(net, TokenUrl(env.value), conn, l.value, path.value, accept, stream);
        }
      }
    }
  }

  /** `url` escapes before any request and `uri` after the first, exactly when missing. */
  lemma CallDestinationUncaughtEarly(destination: string, path: Option<string>, env: Option<Env>,
                                     accept: string, stream: bool, net: Network)
    ensures var c := CallDestination(destination, path, env, accept, stream, net);
      c.outcome == Uncaught(KeyError("url")) <==>
        destination != "" && path.Some? && env.Some? && Bound(env.value) && "url" !in env.value.services[UaaService]
    ensures var c := CallDestination(destination, path, env, accept, stream, net);
      c.outcome == Uncaught(KeyError("url")) ==> c.sent == []
    ensures var c := CallDestination(destination, path, env, accept, stream, net);
      c.outcome == Uncaught(KeyError("uri")) <==>
        |c.sent| >= 1 && TokenOf(net.send(c.sent[0])).Some? && "uri" !in env.value.services[DestinationService]
    ensures var c := CallDestination(destination, path, env, accept, stream, net);
      c.outcome == Uncaught(KeyError("uri")) ==> |c.sent| == 1
  {
    var c := CallDestination(destination, path, env, accept, stream, net);
    if Ready(destination, path, env) {
      var dest, conn := env.value.services[DestinationService], env.value.services[ConnectivityService];
      ResolveSteps(net, TokenUrl(env.value), dest, conn, destination, path.value, accept, stream);
      var t1 := ExchangeToken(net, TokenUrl(env.value), dest);
      if t1.Done? {
        assert c.sent[0] == t1.sent[0];
        if "uri" in dest {
          var l := LookupDestination(net, dest["uri"] + DestinationsPath + destination, t1.value);
          if l.Done? {
            var k := Connect(net, TokenUrl(env.value), conn, l.value, path.value, accept, stream);
            assert c.outcome == k.outcome;
            ConnectSteps(net, TokenUrl(env.value), conn, l.value, path.value, accept, stream);
          }
        }
      }
    }
  }

  /** The three lookups after the connectivity token: each escapes exactly when its key
      is the first one missing. */
  lemma CallDestinationUncaughtProxy(destination: string, path: Option<string>, env: Option<Env>,
                                     accept: string, stream: bool, net: Network)
    ensures var c := CallDestination(destination, path, env, accept, stream, net);
      c.outcome == Uncaught(KeyError("onpremise_proxy_host")) <==>
        |c.sent| >= 3 && TokenOf(net.send(c.sent[2])).Some? && "onpremise_proxy_host" !in env.value.services[ConnectivityService]
    ensures var c := CallDestination(destination, path, env, accept, stream, net);
      c.outcome == Uncaught(KeyError("onpremise_proxy_port")) <==>
        |c.sent| >= 3 && TokenOf(net.send(c.sent[2])).Some? && "onpremise_proxy_host" in env.value.services[ConnectivityService] &&
        "onpremise_proxy_port" !in env.value.services[ConnectivityService]
    ensures var c := CallDestination(destination, path, env, accept, stream, net);
      c.outcome == Uncaught(KeyError("URL")) <==>
        |c.sent| >= 3 && TokenOf(net.send(c.sent[2])).Some? && "onpremise_proxy_host" in env.value.services[ConnectivityService] &&
        "onpremise_proxy_port" in env.value.services[ConnectivityService] && "URL" !in ConfigOf(net.send(c.sent[1])).value
  {
    CallDestinationAfterLookup(destination, path, env, accept, stream, net);
    var c := CallDestination(destination, path, env, accept, stream, net);
    if |c.sent| >= 2 && ConfigOf(net.send(c.sent[1])).Some? {
      var cfg := ConfigOf(net.send(c.sent[1])).value;
      var conn := env.value.services[ConnectivityService];
      var k := Connect(net, TokenUrl(env.value), conn, cfg, path.value, accept, stream);
      ConnectBeforeSend(net, TokenUrl(env.value), conn, cfg, path.value, accept, stream);
      assert |c.sent| >= 3 ==> c.sent[2] == k.sent[0];
    }
  }

  /** The headers of `call_destination`'s requests: the lookup carries the destination
      token (the first reply's access_token); the fetch carries the connectivity token
      (the third reply's access_token), not the destination token, and the record's
      Cloud Connector location. */
  lemma CallDestinationHeaders(destination: string, path: Option<string>, env: Option<Env>,
                               accept: string, stream: bool, net: Network)
    ensures var c := CallDestination(destination, path, env, accept, stream, net);
      |c.sent| >= 2 ==>
        TokenOf(net.send(c.sent[0])).Some? && TokenOf(net.send(c.sent[0])).value.JStr? &&
        c.sent[1].headers == [("Accept", "application/json"),
                              ("Authorization", "Bearer " + TokenOf(net.send(c.sent[0])).value.s)]
    ensures var c := CallDestination(destination, path, env, accept, stream, net);
      |c.sent| == 4 ==>
        ConfigOf(net.send(c.sent[1])).Some? && TokenOf(net.send(c.sent[2])).Some? &&
        var cfg := ConfigOf(net.send(c.sent[1])).value;
        TokenOf(net.send(c.sent[2])).value.JStr? && "CloudConnectorLocationId" in cfg &&
        c.sent[3].headers == [("Accept", accept),
                              ("Proxy-Authorization", "Bearer " + TokenOf(net.send(c.sent[2])).value.s),
                              ("SAP-Connectivity-SCC-Location_ID", cfg["CloudConnectorLocationId"])]
  {
    if destination != "" && path.Some? && env.Some? && Bound(env.value) {
      var uaa := env.value.services[UaaService];
      if "url" in uaa {
        var conn := env.value.services[ConnectivityService];
        var dest := env.value.services[DestinationService];
        ResolveHeaders(net, uaa["url"] + TokenPath, dest, conn, destination, path.value, accept, stream);
      }
    }
  }

  /** Connect's facts, read at their positions 2 and 3 of Resolve's requests. */
  lemma ResolveTail(net: Network, tokenUrl: string, dest: Dict, conn: Dict, name: string,
                    path: string, accept: string, stream: bool)
    ensures var c := Resolve(net, tokenUrl, dest, conn, name, path, accept, stream);
      c.outcome.Error? && StartsWith(c.outcome.msg, ConnTokenMsg) ==> |c.sent| in {2, 3}
    ensures var c := Resolve(net, tokenUrl, dest, conn, name, path, accept, stream);
      c.outcome.Error? && StartsWith(c.outcome.msg, FetchMsg) ==> |c.sent| in {3, 4}
    ensures var c := Resolve(net, tokenUrl, dest, conn, name, path, accept, stream);
      |c.sent| >= 3 ==>
        "clientid" in conn && "clientsecret" in conn &&
        c.sent[2] == TokenRequest(tokenUrl, conn["clientid"], conn["clientsecret"])
    ensures var c := Resolve(net, tokenUrl, dest, conn, name, path, accept, stream);
      |c.sent| >= 3 && TokenOf(net.send(c.sent[2])).None? ==>
        c.outcome.Error? && StartsWith(c.outcome.msg, ConnTokenMsg)
    ensures var c := Resolve(net, tokenUrl, dest, conn, name, path, accept, stream);
      |c.sent| == 4 ==>
        var cfg := ConfigOf(net.send(c.sent[1])).value;
        TokenOf(net.send(c.sent[2])).Some? &&
        "onpremise_proxy_host" in conn && "onpremise_proxy_port" in conn &&
        "URL" in cfg && "User" in cfg && "Password" in cfg &&
        c.sent[3].Get? && c.sent[3].url == cfg["URL"] + path &&
        c.sent[3].proxy == Some("http://" + conn["onpremise_proxy_host"] + ":" + conn["onpremise_proxy_port"]) &&
        c.sent[3].basicAuth == Some((cfg["User"], cfg["Password"])) &&
        c.sent[3].stream == stream
    ensures var c := Resolve(net, tokenUrl, dest, conn, name, path, accept, stream);
      |c.sent| == 4 && net.send(c.sent[3]).Raised? ==>
        c.outcome.Error? && StartsWith(c.outcome.msg, FetchMsg)
    ensures var c := Resolve(net, tokenUrl, dest, conn, name, path, accept, stream);
      c.outcome.Body? || c.outcome.Stream? <==> |c.sent| == 4 && net.send(c.sent[3]).Answered?
    ensures var c := Resolve(net, tokenUrl, dest, conn, name, path, accept, stream);
      c.outcome.Body? ==> !stream && c.outcome.bytes == net.send(c.sent[3]).response.content
    ensures var c := Resolve(net, tokenUrl, dest, conn, name, path, accept, stream);
      c.outcome.Stream? ==> stream && c.outcome.response == net.send(c.sent[3]).response
  {
    StagePrefixesDistinct();
    var c := Resolve(net, tokenUrl, dest, conn, name, path, accept, stream);
    if |c.sent| >= 3 {
      var cfg := ConfigOf(net.send(c.sent[1])).value;
      var r := Connect(net, tokenUrl, conn, cfg, path, accept, stream);
      assert c.sent[2..] == r.sent;
      assert |r.sent| >= 1 ==> c.sent[2] == r.sent[0];
      assert |r.sent| == 2 ==> c.sent[3] == r.sent[1];
    }
  }

  /** The headers of Resolve's requests: the lookup carries the destination token of the
      first reply, and the fetch the connectivity token of the third reply together with
      the record's Cloud Connector location. */
  lemma ResolveHeaders(net: Network, tokenUrl: string, dest: Dict, conn: Dict, name: string,
                       path: string, accept: string, stream: bool)
    ensures var c := Resolve(net, tokenUrl, dest, conn, name, path, accept, stream);
      |c.sent| >= 2 ==>
        TokenOf(net.send(c.sent[0])).Some? && TokenOf(net.send(c.sent[0])).value.JStr? &&
        c.sent[1].headers == [("Accept", "application/json"),
                              ("Authorization", "Bearer " + TokenOf(net.send(c.sent[0])).value.s)]
    ensures var c := Resolve(net, tokenUrl, dest, conn, name, path, accept, stream);
      |c.sent| == 4 ==>
        ConfigOf(net.send(c.sent[1])).Some? && TokenOf(net.send(c.sent[2])).Some? &&
        var cfg := ConfigOf(net.send(c.sent[1])).value;
        TokenOf(net.send(c.sent[2])).value.JStr? && "CloudConnectorLocationId" in cfg &&
        c.sent[3].headers == [("Accept", accept),
                              ("Proxy-Authorization", "Bearer " + TokenOf(net.send(c.sent[2])).value.s),
                              ("SAP-Connectivity-SCC-Location_ID", cfg["CloudConnectorLocationId"])]
  {
    var c := Resolve(net, tokenUrl, dest, conn, name, path, accept, stream);
    if |c.sent| >= 3 {
      var cfg := ConfigOf(net.send(c.sent[1])).value;
      var r := Connect(net, tokenUrl, conn, cfg, path, accept, stream);
      assert c.sent[2..] == r.sent;
      assert |r.sent| >= 1 ==> c.sent[2] == r.sent[0];
      assert |r.sent| == 2 ==> c.sent[3] == r.sent[1];
    }
  }
}
