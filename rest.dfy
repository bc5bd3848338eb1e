/**
 * The REST API under the 'mrwp/v1' namespace: the three routes, the action
 * whitelist and dispatch with its status-code mapping, the permission check,
 * the bounded request log, and the order in which WordPress applies the
 * authentication filter, the route and the parameter checks to one
 * request. The CORS handler is modelled on its own: nothing hooks it into
 * request handling, so no served response carries its headers.
 */
module Rest {
  import opened Php
  import opened Logs
  import Wp
  import AgentCore
  import Security
  import Status
  import Maintenance
  import Debug
  import Email

  /** The request log keeps the 100 most recent entries. */
  const ApiLogLimit: nat := 100

  /** The four remote actions. */
  datatype Action = ToggleMaintenance | ResetBypass | ToggleDebug | SendBypassEmail
  {
    function Name(): string {
      match this
      case ToggleMaintenance => "toggle_maintenance"
      case ResetBypass => "reset_bypass"
      case ToggleDebug => "toggle_debug"
      case SendBypassEmail => "send_bypass_email"
    }

    /** The position of the action's `case` label in the switch. */
    function Index(): nat {
      match this
      case ToggleMaintenance => 0
      case ResetBypass => 1
      case ToggleDebug => 2
      case SendBypassEmail => 3
    }
  }

  /** `validate_action()`: `in_array($value, $allowed, true)`, so only one of the four names as a string. */
  predicate ValidateAction(v: Value)
    ensures ValidateAction(v) <==> exists a: Action :: v == Str(a.Name())
  {
    var valid := v.Str? && v.s in {"toggle_maintenance", "reset_bypass", "toggle_debug", "send_bypass_email"};
    assert valid ==> v in {Str(ToggleMaintenance.Name()), Str(ResetBypass.Name()), Str(ToggleDebug.Name()), Str(SendBypassEmail.Name())};
    valid
  }

  /** The names are distinct, so each names exactly one action. */
  lemma NamesDistinct()
    ensures forall a: Action, b: Action :: a.Name() == b.Name() ==> a == b
  {
    assert "toggle_maintenance"[0] == 't' && "reset_bypass"[0] == 'r' && "send_bypass_email"[0] == 's';
    assert "toggle_maintenance"[7] == 'm' && "toggle_debug"[7] == 'd';
  }

  /** The `switch ($action)` of `handle_action()`: the first label that loosely equals the parameter. */
  function SelectAction(v: Value): (r: Option<Action>)
    ensures r.Some? ==> LooseEqualsLabel(v, r.value.Name())
    ensures r.None? <==> forall a: Action :: !LooseEqualsLabel(v, a.Name())
    ensures r.Some? ==> forall a: Action :: a.Index() < r.value.Index() ==> !LooseEqualsLabel(v, a.Name())
  {
    if LooseEqualsLabel(v, "toggle_maintenance") then Some(ToggleMaintenance)
    else if LooseEqualsLabel(v, "reset_bypass") then Some(ResetBypass)
    else if LooseEqualsLabel(v, "toggle_debug") then Some(ToggleDebug)
    else if LooseEqualsLabel(v, "send_bypass_email") then Some(SendBypassEmail)
    else None
  }

  /**
   * Every value the whitelist admits selects the action of that name; the
   * only other value the loose switch dispatches is `true`, which selects the
   * first case.
   */
  lemma SwitchAgreesWithWhitelist(v: Value)
    ensures ValidateAction(v) ==> SelectAction(v).Some? && SelectAction(v).value.Name() == v.s
    ensures SelectAction(v).Some? ==> ValidateAction(v) || v == Bool(true)
    ensures v == Bool(true) ==> SelectAction(v) == Some(ToggleMaintenance)
  {
    NamesDistinct();
    if v.Int? {
      var d := DecimalString(v.i);
      if v.i < 0 {
        assert d[0] == '-';
      } else {
        assert IsDigit(d[0]);
      }
    }
  }

  /** The body of a REST response. */
  datatype ReplyBody =
    | ActionBody(result: AgentCore.ActionResult)
    | ErrorBody(message: string)
    | StatusBody(status: Status.SiteStatus)
    | InfoBody(info: Status.BasicInfo)
    | WpError(code: string, message: string)
    | IndexBody(namespace: string, routes: seq<string>)

  /** A `WP_REST_Response` (or the `WP_Error` WordPress turns into one): status and body. */
  datatype Reply = Reply(status: int, body: ReplyBody)

  /**
   * The status mapping of `handle_action()` for a dispatched action: 200 when
   * the result is ok, 400 when it is not, and 500 with the exception's
   * message when the component threw.
   */
  function ResultReply(res: Result<AgentCore.ActionResult>): (reply: Reply)
    ensures reply.status == 200 <==> res.Ok? && res.value.Ok()
    ensures reply.status == 400 <==> res.Ok? && !res.value.Ok()
    ensures reply.status == 500 <==> res.Raised?
    ensures res.Ok? ==> reply.body == ActionBody(res.value)
    ensures res.Raised? ==> reply.body == ErrorBody(res.message)
  {
    match res
    case Ok(result) => Reply(if result.Ok() then 200 else 400, ActionBody(result))
    case Raised(message) => Reply(500, ErrorBody(message))
  }

  /** `handle_action()` for a parameter the switch does not recognise. */
  function UnknownActionReply(v: Value): (reply: Reply)
    ensures reply.status == 400
    ensures reply.body == ErrorBody("Unknown action: " + ToPhpString(v))
  {
    Reply(400, ErrorBody("Unknown action: " + ToPhpString(v)))
  }

  /** What one request has to work with: the agent and its options, the runtime, the mailer, the site and the clock. */
  datatype Env = Env(
    agent: AgentCore.Agent,
    site: Wp.Site,
    rt: Debug.Runtime,
    files: Debug.DebugFiles,
    mailer: Email.Mailer,
    hmac: Security.Hmac,
    now: int,
    localTime: string)

  /** The runtime, the mail record and the notice list are left as they were. */
  twostate predicate SideStateUnchanged(env: Env)
    reads env.rt, env.mailer, env.agent.options
  {
    env.rt.State() == old(env.rt.State()) && env.mailer.sent == old(env.mailer.sent)
    && env.agent.options.debugNotices == old(env.agent.options.debugNotices)
  }

  /**
   * Run one action's component method. Each action changes only its own
   * part of the state: one option key for the two toggles and the code
   * reset, the runtime and notices for the debug toggle, and at most one
   * mail for the bypass email. Only the code reset can throw.
   */
  method RunAction(env: Env, a: Action) returns (res: Result<AgentCore.ActionResult>)
    modifies env.agent.options`agent, env.agent.options`debugNotices, env.rt, env.mailer`sent
    ensures a != ResetBypass ==> res.Ok?
    ensures a == ToggleMaintenance ==> (env.agent.GetOptions() == AgentCore.Flipped(old(env.agent.GetOptions()), "maintenance_enabled")
      && SideStateUnchanged(env) && res.value.Ok())
    ensures a == ResetBypass ==> (SideStateUnchanged(env)
      && (res.Raised? ==> env.agent.options.agent == old(env.agent.options.agent))
      && (res.Ok? ==> (res.value.Done? && |res.value.state| == 2
            && env.agent.GetOptions() == old(env.agent.GetOptions())["bypass_code" := res.value.state[1].1])))
    ensures a == ToggleDebug ==> (env.agent.GetOptions() == AgentCore.Flipped(old(env.agent.GetOptions()), "debug_enabled")
      && env.mailer.sent == old(env.mailer.sent) && res.value.Ok())
    ensures a == SendBypassEmail ==> (env.agent.options.agent == old(env.agent.options.agent)
      && env.rt.State() == old(env.rt.State()) && env.agent.options.debugNotices == old(env.agent.options.debugNotices)
      && old(env.mailer.sent) <= env.mailer.sent && |env.mailer.sent| <= |old(env.mailer.sent)| + 1)
  {
    match a
    case ToggleMaintenance =>
      var r := Maintenance.ToggleMaintenance(env.agent, env.site);
      res := Ok(r);
    case ResetBypass =>
      res := Maintenance.ResetBypass(env.agent, env.site);
    case ToggleDebug =>
      var r := Debug.ToggleDebug(env.agent, env.rt, env.files, env.now);
      res := Ok(r);
    case SendBypassEmail =>
      var r := Email.SendBypassEmail(env.agent, env.site, env.mailer, env.now, env.localTime);
      res := Ok(r);
  }

  /**
   * `handle_action()`: an unrecognised parameter is answered with 400 and
   * changes nothing; a recognised one runs its action, whose result decides
   * the status.
   */
  method HandleAction(env: Env, action: Value) returns (reply: Reply)
    modifies env.agent.options`agent, env.agent.options`debugNotices, env.rt, env.mailer`sent
    ensures SelectAction(action).None? ==> (reply == UnknownActionReply(action)
      && env.agent.options.agent == old(env.agent.options.agent) && SideStateUnchanged(env))
    ensures SelectAction(action).Some? ==> reply.status in {200, 400, 500}
    ensures reply.status == 500 ==> SelectAction(action) == Some(ResetBypass)
    ensures SelectAction(action).Some? && reply.status != 500 ==> (reply.body.ActionBody?
      && (reply.status == 200 <==> reply.body.result.Ok()))
    ensures SelectAction(action) == Some(ToggleMaintenance) ==> (reply.status == 200
      && env.agent.GetOptions() == AgentCore.Flipped(old(env.agent.GetOptions()), "maintenance_enabled") && SideStateUnchanged(env))
    ensures SelectAction(action) == Some(ResetBypass) ==> (SideStateUnchanged(env)
      && (reply.status == 500 ==> env.agent.options.agent == old(env.agent.options.agent))
      && (reply.status != 500 ==> (reply.body.result.Done? && |reply.body.result.state| == 2
            && env.agent.GetOptions() == old(env.agent.GetOptions())["bypass_code" := reply.body.result.state[1].1])))
    ensures SelectAction(action) == Some(ToggleDebug) ==> (reply.status == 200
      && env.agent.GetOptions() == AgentCore.Flipped(old(env.agent.GetOptions()), "debug_enabled")
      && env.mailer.sent == old(env.mailer.sent))
    ensures SelectAction(action) == Some(SendBypassEmail) ==> (env.agent.options.agent == old(env.agent.options.agent)
      && env.rt.State() == old(env.rt.State()) && env.agent.options.debugNotices == old(env.agent.options.debugNotices)
      && old(env.mailer.sent) <= env.mailer.sent && |env.mailer.sent| <= |old(env.mailer.sent)| + 1)
  {
    var selected := SelectAction(action);
    if selected.None? {
      return UnknownActionReply(action);
    }
    var res := RunAction(env, selected.value);
    reply := ResultReply(res);
  }

  /** `handle_status()`: the site status with 200, or the exception's message with 500. */
  function HandleStatus(status: Result<Status.SiteStatus>): (reply: Reply)
    ensures reply.status == 200 <==> status.Ok?
    ensures status.Ok? ==> reply.body == StatusBody(status.value)
    ensures status.Raised? ==> reply == Reply(500, ErrorBody(status.message))
  {
    match status
    case Ok(s) => Reply(200, StatusBody(s))
    case Raised(message) => Reply(500, ErrorBody(message))
  }

  /** `handle_ping()`: the basic info, always with 200. */
  function HandlePing(site: Wp.Site): (reply: Reply)
    ensures reply.status == 200 && reply.body.InfoBody? && reply.body.info.ok
    ensures reply.body.info == Status.GetBasicInfo(site)
  {
    Reply(200, InfoBody(Status.GetBasicInfo(site)))
  }

  /** What `check_authentication()` returns: true, or the `WP_Error` of the signature check. */
  datatype Permission = Granted | Refused(error: Security.AuthError)

  /** `check_authentication()`: the permission callback of /status and /action. */
  method CheckAuthentication(env: Env, req: Wp.Request) returns (p: Permission)
    ensures p == Granted <==> Security.CheckRequest(env.hmac, env.agent.GetOption("site_secret", Str("")), env.now,
      Security.HeaderValue(req, Security.TimestampHeader), Security.HeaderValue(req, Security.SignatureHeader), req.body) == Security.Accepted
    ensures p.Refused? ==> (Security.CheckRequest(env.hmac, env.agent.GetOption("site_secret", Str("")), env.now,
      Security.HeaderValue(req, Security.TimestampHeader), Security.HeaderValue(req, Security.SignatureHeader), req.body)
      == Security.Rejected(p.error))
  {
    var validation := Security.ValidateHmacSignature(env.hmac, env.agent, env.now, req);
    if validation.Rejected? {
      return Refused(validation.error);
    }
    return Granted;
  }

  // ---------------------------------------------------------------------
  // CORS

  const AllowMethods: string := "GET, POST, OPTIONS"
  const AllowHeaders: string := "Content-Type, x-mrwp-timestamp, x-mrwp-signature"

  /** Whether `handle_cors()` touches the response: the route starts with '/mrwp/v1/'. */
  predicate CorsApplies(route: string) {
    StartsWith(route, "/mrwp/v1/")
  }

  /**
   * The Allow-Origin value for the configured hub URL: any origin while no
   * hub is configured, the hub's scheme and host when its URL has a host,
   * and none otherwise. Path and port of the hub are dropped; a URL without
   * a scheme contributes the empty string, as PHP reads a missing key as null.
   */
  function AllowOrigin(hubUrl: Value, parseUrl: string -> Option<Wp.Url>): (r: Option<string>)
    ensures Empty(hubUrl) <==> r == Some("*")
    ensures Truthy(hubUrl) ==> (r.None? <==> parseUrl(ToPhpString(hubUrl)).None? || parseUrl(ToPhpString(hubUrl)).value.host.None?)
    ensures Truthy(hubUrl) && r.Some? ==> var u := parseUrl(ToPhpString(hubUrl)).value;
      r.value == (if u.scheme.Some? then u.scheme.value else "") + "://" + u.host.value
  {
    if Empty(hubUrl) then Some("*")
    else
      var parsed := parseUrl(ToPhpString(hubUrl));
      if parsed.Some? && parsed.value.host.Some? then
        var origin := (if parsed.value.scheme.Some? then parsed.value.scheme.value else "") + "://" + parsed.value.host.value;
        assert |origin| >= 3;
        Some(origin)
      else None
  }

  /** The headers of a `WP_REST_Response`, which `header()` sets (replacing an earlier value). */
  class RestResponse {
    var headers: map<string, string>

    constructor (headers: map<string, string>)
      ensures this.headers == headers
    {
      this.headers := headers;
    }

    method Header(key: string, value: string)
      modifies this`headers
      ensures headers == old(headers)[key := value]
    {
      headers := headers[key := value];
    }
  }

  /**
   * `handle_cors($response, $server, $request)` called directly; no hook
   * registers it. Responses for other routes are untouched; ours get
   * Allow-Methods and Allow-Headers always, and Allow-Origin when
   * `AllowOrigin` gives one.
   */
  method HandleCors(response: RestResponse, agent: AgentCore.Agent, site: Wp.Site, route: string)
    modifies response`headers
    ensures !CorsApplies(route) ==> response.headers == old(response.headers)
    ensures CorsApplies(route) ==> var base := old(response.headers)
        ["Access-Control-Allow-Methods" := AllowMethods]["Access-Control-Allow-Headers" := AllowHeaders];
      var origin := AllowOrigin(agent.GetOption("hub_url", Str("")), site.parseUrl);
      response.headers == if origin.Some? then base["Access-Control-Allow-Origin" := origin.value] else base
  {
    if !StartsWith(route, "/mrwp/v1/") {
      return;
    }
    var hubUrl := agent.GetOption("hub_url", Str(""));
    response.Header("Access-Control-Allow-Methods", AllowMethods);
    response.Header("Access-Control-Allow-Headers", AllowHeaders);
    if Truthy(hubUrl) {
      var parsed := site.parseUrl(ToPhpString(hubUrl));
      if parsed.Some? && parsed.value.host.Some? {
        var scheme := if parsed.value.scheme.Some? then parsed.value.scheme.value else "";
        response.Header("Access-Control-Allow-Origin", scheme + "://" + parsed.value.host.value);
      }
    } else {
      response.Header("Access-Control-Allow-Origin", "*");
    }
  }

  // ---------------------------------------------------------------------
  // The request log

  /** `isset($data['ok']) ? ($data['ok'] ? 'success' : 'error') : 'unknown'`. */
  function ResponseStatus(data: seq<(string, Value)>): (r: string)
    ensures r == "unknown" <==> Lookup(data, "ok").None? || Lookup(data, "ok").value == Null
    ensures r == "success" <==> Lookup(data, "ok").Some? && Truthy(Lookup(data, "ok").value)
    ensures r == "error" <==> Lookup(data, "ok").Some? && Lookup(data, "ok").value != Null && Empty(Lookup(data, "ok").value)
  {
    var ok := Lookup(data, "ok");
    if ok.None? || ok.value == Null then "unknown"
    else if Truthy(ok.value) then "success" else "error"
  }

  /** An action result as the array the component returns. */
  function ActionData(r: AgentCore.ActionResult): seq<(string, Value)> {
    match r
    case Done(action, state) => [("ok", Bool(true)), ("action", Str(action)), ("state", Arr(state))]
    case Failed(error) => [("ok", Bool(false)), ("error", Str(error))]
  }

  /** Logging an action's result records "success" exactly when its reply has status 200, and "error" otherwise. */
  lemma LoggedStatusMatchesReply(r: AgentCore.ActionResult)
    ensures ResponseStatus(ActionData(r)) == "success" <==> ResultReply(Ok(r)).status == 200
    ensures ResponseStatus(ActionData(r)) == "error" <==> ResultReply(Ok(r)).status == 400
  {
  }

  /**
   * The parts of a `WP_REST_Request` the request log and the router read.
   * `httpMethod` is upper-cased, as `WP_REST_Request::set_method` stores it,
   * and `route` has its trailing "/" removed, as `rest_api_loaded` does.
   * `params` is the merged view of `get_params()`: one value per name.
   */
  datatype RestRequest = RestRequest(httpMethod: string, route: string, params: map<string, Value>, userAgent: Option<string>)

  /**
   * `log_api_request()`: append one entry to 'mrwp_api_log' and keep the last
   * 100. The client address is given, as `get_client_ip()` is not modelled.
   */
  method LogApiRequest(store: Wp.Options, request: RestRequest, ip: string, responseData: seq<(string, Value)>, now: int)
    modifies store`apiLog
    ensures store.apiLog == Append(old(store.apiLog), Stamped(now, ApiRequest(request.httpMethod, request.route,
      request.params, request.userAgent, ip, ResponseStatus(responseData))), ApiLogLimit)
  {
    var entry := Stamped(now, ApiRequest(request.httpMethod, request.route, request.params, request.userAgent, ip,
      ResponseStatus(responseData)));
    var log := store.apiLog;
    log := log + [entry];
    if |log| > ApiLogLimit {
      log := log[|log| - ApiLogLimit..];
    }
    store.apiLog := log;
  }

  /** `get_api_log($limit)`: the newest `limit` entries, newest first; the PHP default limit of 50 is the caller's argument here. */
  method GetApiLog(store: Wp.Options, limit: int) returns (r: seq<Stamped<ApiRequest>>)
    ensures NewestFirst(r) && multiset(r) <= multiset(store.apiLog)
    ensures limit >= 0 ==> |r| == if limit < |store.apiLog| then limit else |store.apiLog|
    ensures limit < 0 ==> |r| == if |store.apiLog| + limit > 0 then |store.apiLog| + limit else 0
    ensures forall x, j :: x in multiset(store.apiLog) - multiset(r) && 0 <= j < |r| ==> x.timestamp <= r[j].timestamp
    ensures forall t :: AtTime(r, t) <= AtTime(store.apiLog, t)
  {
    r := NewestEntries(store.apiLog, limit);
  }

  // ---------------------------------------------------------------------
  // One request, in the order WordPress handles it

  /**
   * The routes of the `mrwp/v1` namespace: the three that `register_routes()`
   * registers, and the namespace index (GET /mrwp/v1, no permission callback)
   * that WordPress adds with the namespace's first route. WordPress matches
   * the route case-insensitively and by method.
   */
  datatype Endpoint = IndexEndpoint | PingEndpoint | StatusEndpoint | ActionEndpoint | NoEndpoint

  /** The routes the namespace index lists. */
  const NamespaceRoutes: seq<string> := ["/mrwp/v1", "/mrwp/v1/ping", "/mrwp/v1/status", "/mrwp/v1/action"]

  function EndpointOf(request: RestRequest): (e: Endpoint)
    ensures e == IndexEndpoint <==> Lower(request.route) == "/mrwp/v1" && request.httpMethod == "GET"
    ensures e == PingEndpoint <==> Lower(request.route) == "/mrwp/v1/ping" && request.httpMethod == "GET"
    ensures e == StatusEndpoint <==> Lower(request.route) == "/mrwp/v1/status" && request.httpMethod == "POST"
    ensures e == ActionEndpoint <==> Lower(request.route) == "/mrwp/v1/action" && request.httpMethod == "POST"
  {
    var route := Lower(request.route);
    if route == "/mrwp/v1" && request.httpMethod == "GET" then IndexEndpoint
    else if route == "/mrwp/v1/ping" && request.httpMethod == "GET" then PingEndpoint
    else if route == "/mrwp/v1/status" && request.httpMethod == "POST" then StatusEndpoint
    else if route == "/mrwp/v1/action" && request.httpMethod == "POST" then ActionEndpoint
    else NoEndpoint
  }

  /** Every route a request can reach is one the namespace index lists. */
  lemma IndexListsEveryRoute(request: RestRequest)
    ensures EndpointOf(request) != NoEndpoint ==> Lower(request.route) in NamespaceRoutes
  {
  }

  /** The namespace index: 200 with the namespace and its routes. */
  function HandleIndex(): (reply: Reply)
    ensures reply.status == 200 && reply.body.IndexBody? && reply.body.namespace == "mrwp/v1"
    ensures forall route :: route in reply.body.routes <==> route in NamespaceRoutes
  {
    Reply(200, IndexBody("mrwp/v1", NamespaceRoutes))
  }

  /** The routes whose permission callback is `check_authentication()`. */
  predicate Signed(e: Endpoint) {
    e == StatusEndpoint || e == ActionEndpoint
  }

  /**
   * What happens before a callback runs: the authentication filter, then
   * route matching, then the required and validated `action` parameter,
   * then the permission callback. `Proceed` means the callback runs.
   */
  datatype Admission = Proceed | Refuse(reply: Reply)

  function AuthErrorReply(e: Security.AuthError): Reply {
    Reply(e.Status(), WpError(e.Code(), e.Message()))
  }

  /**
   * A required parameter counts as given when `get_param()` finds it set:
   * WordPress reads it through `isset`, so a null value is missing.
   */
  predicate HasAction(params: map<string, Value>) {
    "action" in params && params["action"] != Null
  }

  const MissingActionReply: Reply := Reply(400, WpError("rest_missing_callback_param", "Missing parameter(s): action"))

  const InvalidActionReply: Reply := Reply(400, WpError("rest_invalid_param", "Invalid parameter(s): action"))

  function Admit(filter: Security.FilterResult, endpoint: Endpoint, params: map<string, Value>, permission: Permission): (r: Admission)
    ensures filter.Deny? ==> r == Refuse(AuthErrorReply(filter.error))
    ensures r == Proceed ==> filter.PassOn? && endpoint != NoEndpoint
    ensures r == Proceed && Signed(endpoint) ==> permission == Granted
    ensures r == Proceed && endpoint == ActionEndpoint ==> HasAction(params) && ValidateAction(params["action"])
    ensures filter.PassOn? && endpoint == ActionEndpoint && !HasAction(params) ==> r == Refuse(MissingActionReply)
    ensures filter.PassOn? && endpoint == ActionEndpoint && HasAction(params) && !ValidateAction(params["action"])
      ==> r == Refuse(InvalidActionReply)
    ensures r.Refuse? ==> r.reply.status in {400, 401, 404}
  {
    if filter.Deny? then Refuse(AuthErrorReply(filter.error))
    else if endpoint == NoEndpoint then
      Refuse(Reply(404, WpError("rest_no_route", "No route was found matching the URL and request method.")))
    else if endpoint == ActionEndpoint && !HasAction(params) then
      Refuse(MissingActionReply)
    else if endpoint == ActionEndpoint && !ValidateAction(params["action"]) then
      Refuse(InvalidActionReply)
    else if Signed(endpoint) && permission.Refused? then
      Refuse(AuthErrorReply(permission.error))
    else Proceed
  }

  /**
   * A request with a valid signature and an unknown action is refused with
   * 400 before the permission callback; a well-formed action request with a
   * bad signature is refused with 401 whether or not the filter saw it.
   */
  lemma AdmissionOutcomes(filter: Security.FilterResult, params: map<string, Value>, permission: Permission)
    ensures filter.PassOn? && (!HasAction(params) || !ValidateAction(params["action"]))
      ==> (Admit(filter, ActionEndpoint, params, permission).Refuse?
       && Admit(filter, ActionEndpoint, params, permission).reply.status == 400)
    ensures HasAction(params) && ValidateAction(params["action"]) && permission.Refused?
      ==> (Admit(filter, ActionEndpoint, params, permission).Refuse?
       && Admit(filter, ActionEndpoint, params, permission).reply.status == 401)
  {
  }

  /**
   * One REST request from start to callback: `authenticate_request`, the
   * router, `validate_action`, `check_authentication`, then the callback.
   * The status route is given its status (or exception) as computed.
   * Nothing changes unless the request reaches the action callback, and that
   * needs a signature the site accepts, whatever the URI looked like to the
   * filter.
   */
  method ServeRequest(env: Env, req: Wp.Request, request: RestRequest, status: Result<Status.SiteStatus>)
    returns (reply: Reply)
    modifies env.agent.options`agent, env.agent.options`debugNotices, env.rt, env.mailer`sent
    ensures var verdict := old(Security.CheckRequest(env.hmac, env.agent.GetOption("site_secret", Str("")), env.now,
        Security.HeaderValue(req, Security.TimestampHeader), Security.HeaderValue(req, Security.SignatureHeader), req.body));
      (verdict != Security.Accepted || EndpointOf(request) != ActionEndpoint) ==>
        (env.agent.options.agent == old(env.agent.options.agent) && SideStateUnchanged(env))
    ensures EndpointOf(request) == PingEndpoint && Security.Exempt(req.uri, req.httpMethod) ==> reply == HandlePing(env.site)
    ensures EndpointOf(request) == IndexEndpoint && Security.Exempt(req.uri, req.httpMethod) ==> reply == HandleIndex()
    ensures EndpointOf(request) == NoEndpoint ==> reply.status in {401, 404}
  {
    var filter := Security.AuthenticateRequest(env.hmac, env.agent, env.now, req);
    var endpoint := EndpointOf(request);
    var permission := Granted;
    if Signed(endpoint) {
      permission := CheckAuthentication(env, req);
    }
    var admission := Admit(filter, endpoint, request.params, permission);
    if admission.Refuse? {
      return admission.reply;
    }
    match endpoint
    case IndexEndpoint =>
      reply := HandleIndex();
    case PingEndpoint =>
      reply := HandlePing(env.site);
    case StatusEndpoint =>
      reply := HandleStatus(status);
    case ActionEndpoint =>
      reply := HandleAction(env, request.params["action"]);
  }
}
