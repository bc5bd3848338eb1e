/**
 * Maintenance mode: the per-request gate that ends either in passing the
 * request on or in the 503 maintenance page, the bypass code that a visitor
 * exchanges for a cookie, and the two remote actions that flip the mode and
 * renew the code.
 */
module Maintenance {
  import opened Php
  import Wp
  import AgentCore
  import Security
  import Status

  const BypassCookie: string := "mrwp_bypass"

  /** The bypass cookie lives for 24 hours. */
  const CookieExpiry: int := 86400

  /** A `setcookie` call: name, value, expiry, path, domain, secure, HttpOnly. */
  datatype Cookie = Cookie(name: string, value: string, expires: int, path: string, domain: string, secure: bool, httpOnly: bool)

  /**
   * `is_bypass_valid()`: the cookie is present and the stored code is
   * non-empty and equal to it (`hash_equals`).
   */
  predicate IsBypassValid(cookies: map<string, string>, storedCode: Value)
    ensures IsBypassValid(cookies, storedCode) ==> (storedCode.Str? && BypassCookie in cookies
      && cookies[BypassCookie] == storedCode.s && cookies[BypassCookie] != "" && cookies[BypassCookie] != "0")
  {
    BypassCookie in cookies && Truthy(storedCode) && storedCode == Str(cookies[BypassCookie])
  }

  /** Why the gate let a request through, in the order the checks run. */
  datatype PassReason = MaintenanceOff | AdminUser | AdminArea | ControlApi | ValidBypass

  /** The gate's outcome: the request goes on, or the maintenance page is sent with this status and these headers, and the script exits. */
  datatype Gate = Pass(reason: PassReason) | Block(status: int, headers: seq<(string, string)>)

  predicate IsAdminUser(req: Wp.Request) {
    req.user.loggedIn && req.user.canManageOptions
  }

  predicate InAdminArea(req: Wp.Request) {
    req.isAdmin || Contains(req.uri, "/wp-admin/")
  }

  predicate OnControlApi(req: Wp.Request) {
    Contains(req.uri, "/wp-json/mrwp/v1/")
  }

  /**
   * `check_maintenance_mode()` on the option values it reads
   * ('maintenance_enabled' with default false, 'bypass_code' with default '').
   * Each reason holds and none of the earlier ones does; a blocked request
   * got past all of them and receives 503 with `Retry-After: 3600`.
   */
  function CheckMaintenanceMode(enabled: Value, req: Wp.Request, storedCode: Value): (g: Gate)
    ensures g == Pass(MaintenanceOff) <==> Empty(enabled)
    ensures g == Pass(AdminUser) ==> Truthy(enabled) && IsAdminUser(req)
    ensures g == Pass(AdminArea) ==> Truthy(enabled) && !IsAdminUser(req) && InAdminArea(req)
    ensures g == Pass(ControlApi) ==> Truthy(enabled) && !IsAdminUser(req) && !InAdminArea(req) && OnControlApi(req)
    ensures g == Pass(ValidBypass) ==> (Truthy(enabled) && !IsAdminUser(req) && !InAdminArea(req) && !OnControlApi(req)
      && IsBypassValid(req.cookies, storedCode))
    ensures g.Block? <==> (Truthy(enabled) && !IsAdminUser(req) && !InAdminArea(req) && !OnControlApi(req)
      && !IsBypassValid(req.cookies, storedCode))
    ensures g.Block? ==> g.status == 503 && ("Retry-After", "3600") in g.headers
  {
    if Empty(enabled) then Pass(MaintenanceOff)
    else if IsAdminUser(req) then Pass(AdminUser)
    else if InAdminArea(req) then Pass(AdminArea)
    else if OnControlApi(req) then Pass(ControlApi)
    else if IsBypassValid(req.cookies, storedCode) then Pass(ValidBypass)
    else Block(503, [("Content-Type", "text/html; charset=utf-8"), ("Retry-After", "3600")])
  }

  /** The gate as the agent runs it, on the stored options. */
  function GateForRequest(agent: AgentCore.Agent, req: Wp.Request): (g: Gate)
    reads agent.options
    ensures g == Pass(MaintenanceOff) <==> Empty(agent.GetOption("maintenance_enabled", Bool(false)))
    ensures g == Pass(ValidBypass) ==> IsBypassValid(req.cookies, agent.GetOption("bypass_code", Str("")))
    ensures g.Block? <==> (Truthy(agent.GetOption("maintenance_enabled", Bool(false))) && !IsAdminUser(req)
      && !InAdminArea(req) && !OnControlApi(req) && !IsBypassValid(req.cookies, agent.GetOption("bypass_code", Str(""))))
  {
    CheckMaintenanceMode(agent.GetOption("maintenance_enabled", Bool(false)), req, agent.GetOption("bypass_code", Str("")))
  }

  /** What `handle_bypass_code()` does: nothing, or set the bypass cookie and redirect (then exit). */
  datatype BypassOutcome = NoEffect | Admit(cookie: Cookie, location: string)

  /**
   * `handle_bypass_code()`: a non-empty `bypass_code` query parameter whose
   * sanitised text equals the non-empty stored code earns the bypass cookie
   * (24 hours, path '/', secure on HTTPS, HttpOnly) and a redirect to the
   * same URL without the parameter. It runs whether or not maintenance is on.
   */
  function HandleBypassCode(site: Wp.Site, req: Wp.Request, storedCode: Value, now: int): (r: BypassOutcome)
    ensures r.Admit? <==> ("bypass_code" in req.query && Truthy(Str(req.query["bypass_code"]))
      && Truthy(storedCode) && storedCode == Str(site.sanitizeTextField(req.query["bypass_code"])))
    ensures r.Admit? ==> r.cookie == Cookie(BypassCookie, site.sanitizeTextField(req.query["bypass_code"]),
      now + CookieExpiry, "/", "", req.isSsl, true)
    ensures r.Admit? ==> r.location == site.removeQueryArg("bypass_code", req.uri)
  {
    if "bypass_code" in req.query && Truthy(Str(req.query["bypass_code"])) then
      var code := site.sanitizeTextField(req.query["bypass_code"]);
      if Truthy(storedCode) && storedCode == Str(code) then
        Admit(Cookie(BypassCookie, code, now + CookieExpiry, "/", "", req.isSsl, true), site.removeQueryArg("bypass_code", req.uri))
      else NoEffect
    else NoEffect
  }

  /** The cookie the bypass handler issues validates on the following requests while the code is unchanged. */
  lemma IssuedCookieValidates(site: Wp.Site, req: Wp.Request, storedCode: Value, now: int, cookies: map<string, string>)
    requires HandleBypassCode(site, req, storedCode, now).Admit?
    ensures var c := HandleBypassCode(site, req, storedCode, now).cookie;
      IsBypassValid(cookies[c.name := c.value], storedCode)
  {
  }

  /**
   * Following the bypass link: a visitor who opens the link for the stored
   * code (and whose code the text sanitiser leaves unchanged) is given the
   * cookie, and with it passes the gate of a later, non-admin request.
   */
  lemma BypassLinkAdmits(site: Wp.Site, visit: Wp.Request, code: string, now: int, later: Wp.Request)
    requires Truthy(Str(code)) && site.sanitizeTextField(code) == code
    requires "bypass_code" in visit.query && visit.query["bypass_code"] == code
    requires HandleBypassCode(site, visit, Str(code), now).Admit?
    requires later.cookies == visit.cookies[BypassCookie := code]
    ensures HandleBypassCode(site, visit, Str(code), now).cookie.value == code
    ensures CheckMaintenanceMode(Bool(true), later, Str(code)).Pass?
  {
    assert IsBypassValid(later.cookies, Str(code));
  }

  /** An empty stored code never validates, whatever the cookie says. */
  lemma EmptyCodeNeverValidates(cookies: map<string, string>, storedCode: Value)
    requires Empty(storedCode)
    ensures !IsBypassValid(cookies, storedCode)
    ensures forall req: Wp.Request :: req.cookies == cookies ==> CheckMaintenanceMode(Bool(true), req, storedCode) != Pass(ValidBypass)
  {
  }

  /** `clear_bypass_cookie()`: an expired, empty bypass cookie, only if the request carries one. */
  function ClearBypassCookie(req: Wp.Request, now: int): (r: Option<Cookie>)
    ensures r.Some? <==> BypassCookie in req.cookies
    ensures r.Some? ==> r.value == Cookie(BypassCookie, "", now - 3600, "/", "", req.isSsl, true)
  {
    if BypassCookie in req.cookies then Some(Cookie(BypassCookie, "", now - 3600, "/", "", req.isSsl, true)) else None
  }

  /**
   * The clearing cookie has the name, path and domain of the issued one, so it
   * replaces it; it is already expired, and its empty value never validates.
   */
  lemma ClearedCookieReplacesIssued(site: Wp.Site, visit: Wp.Request, storedCode: Value, issuedAt: int, req: Wp.Request, now: int)
    requires HandleBypassCode(site, visit, storedCode, issuedAt).Admit?
    requires BypassCookie in req.cookies
    ensures var issued := HandleBypassCode(site, visit, storedCode, issuedAt).cookie;
      var cleared := ClearBypassCookie(req, now).value;
      cleared.name == issued.name && cleared.path == issued.path && cleared.domain == issued.domain
      && cleared.expires < now && !IsBypassValid(map[cleared.name := cleared.value], storedCode)
  {
  }

  /**
   * `toggle_maintenance()`: store the negation of the current flag and report
   * it with the bypass link. Only 'maintenance_enabled' changes.
   */
  method ToggleMaintenance(agent: AgentCore.Agent, site: Wp.Site) returns (r: AgentCore.ActionResult)
    modifies agent.options`agent
    ensures agent.GetOptions() == AgentCore.Flipped(old(agent.GetOptions()), "maintenance_enabled")
    ensures r == AgentCore.Done("toggle_maintenance", [
      ("maintenance_enabled", agent.GetOptions()["maintenance_enabled"]),
      ("bypass_link", Str(Status.GetBypassLink(agent, site.home)))])
    ensures Status.GetBypassLink(agent, site.home) == old(Status.GetBypassLink(agent, site.home))
  {
    var current := agent.GetOption("maintenance_enabled", Bool(false));
    var newState := !Truthy(current);
    var _ := agent.SetOption("maintenance_enabled", Bool(newState));
    r := AgentCore.Done("toggle_maintenance", [
      ("maintenance_enabled", Bool(newState)),
      ("bypass_link", Str(Status.GetBypassLink(agent, site.home)))]);
  }

  /**
   * `reset_bypass()`: a fresh 24-character code replaces the stored one and
   * is returned with its link. Only 'bypass_code' changes; when no random
   * source is available the exception leaves the options as they were.
   */
  method ResetBypass(agent: AgentCore.Agent, site: Wp.Site) returns (r: Result<AgentCore.ActionResult>)
    modifies agent.options`agent
    ensures r.Raised? ==> agent.options.agent == old(agent.options.agent)
    ensures r.Ok? ==> (r.value.Done? && r.value.action == "reset_bypass" && |r.value.state| == 2
      && r.value.state[1].0 == "bypass_code" && r.value.state[1].1.Str?)
    ensures r.Ok? ==> var code := r.value.state[1].1.s;
      |code| == 24 && (forall i :: 0 <= i < |code| ==> code[i] in Security.Alphabet)
      && agent.GetOptions() == old(agent.GetOptions())["bypass_code" := Str(code)]
      && r.value.state[0] == ("bypass_link", Str(Status.BypassLink(site.home, Str(code))))
  {
    var generated := Security.GenerateRandomString(24);
    if generated.Raised? {
      return Raised(generated.message);
    }
    var code := generated.value;
    var _ := agent.SetOption("bypass_code", Str(code));
    var link := Status.GetBypassLink(agent, site.home);
    r := Ok(AgentCore.Done("reset_bypass", [("bypass_link", Str(link)), ("bypass_code", Str(code))]));
  }

  /** After a reset to a new code, a cookie validates exactly when it carries that new code. */
  lemma CookieAfterReset(cookies: map<string, string>, code: string)
    requires |code| == 24
    ensures IsBypassValid(cookies, Str(code)) <==> BypassCookie in cookies && cookies[BypassCookie] == code
  {
    assert code != "" && code != "0";
  }

  /** `get_maintenance_status()`: the stored flag as it is (not coerced to bool) and the bypass link. */
  datatype MaintenanceStatus = MaintenanceStatus(maintenanceEnabled: Value, bypassLink: string)

  function GetMaintenanceStatus(opts: map<string, Value>, home: string): (r: MaintenanceStatus)
    ensures r.bypassLink == Status.BypassLink(home, AgentCore.OptionOr(opts, "bypass_code", Str("")))
    ensures "maintenance_enabled" in opts && opts["maintenance_enabled"] != Null ==> r.maintenanceEnabled == opts["maintenance_enabled"]
    ensures "maintenance_enabled" !in opts || opts["maintenance_enabled"] == Null ==> r.maintenanceEnabled == Bool(false)
  {
    MaintenanceStatus(AgentCore.OptionOr(opts, "maintenance_enabled", Bool(false)),
      Status.BypassLink(home, AgentCore.OptionOr(opts, "bypass_code", Str(""))))
  }

  /**
   * The three readings of the flag agree: the raw status value is truthy
   * exactly when the site status reports maintenance on and exactly when the
   * gate does not pass the request as "maintenance off".
   */
  lemma FlagReadingsAgree(site: Wp.Site, wpVersion: string, phpVersion: string, counts: Status.UpdateCounts,
                          opts: map<string, Value>, now: int, req: Wp.Request)
    ensures var raw := GetMaintenanceStatus(opts, site.home).maintenanceEnabled;
      (Truthy(raw) <==> Status.SiteStatusOf(site, wpVersion, phpVersion, counts, opts, now).maintenanceEnabled)
      && (Truthy(raw) <==> CheckMaintenanceMode(raw, req, AgentCore.OptionOr(opts, "bypass_code", Str(""))) != Pass(MaintenanceOff))
  {
  }
}
