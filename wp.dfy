/**
 * The WordPress side of the agent: the site's settings and the helper
 * functions the core calls, and the rows of the `wp_options` table that the
 * core reads and writes.
 */
module Wp {
  import opened Php
  import opened Logs

  /** The two parts of `parse_url($url)` that the agent reads. */
  datatype Url = Url(scheme: Option<string>, host: Option<string>)

  /**
   * The site and the WordPress helpers, each a fixed function of its
   * arguments for the duration of one request. `parseUrl` is None where PHP's
   * `parse_url` returns false; `removeQueryArg(key, url)` is
   * `remove_query_arg($key)` applied to the current URL.
   */
  datatype Site = Site(
    home: string,
    name: string,
    adminEmail: Value,
    isEmail: string -> bool,
    sanitizeEmail: string -> string,
    sanitizeTextField: string -> string,
    escUrlRaw: string -> string,
    parseUrl: string -> Option<Url>,
    removeQueryArg: (string, string) -> string)

  /** Whether the visitor is logged in and holds `manage_options`. */
  datatype User = User(loggedIn: bool, canManageOptions: bool)

  /**
   * The parts of the PHP request environment the agent reads: `$_SERVER`
   * (in order), `getallheaders()` where the function exists, the raw body
   * `php://input`, `$_GET`, `$_COOKIE`, `is_ssl()`, `is_admin()` and the user.
   */
  datatype Request = Request(
    uri: string,
    httpMethod: string,
    server: seq<(string, string)>,
    nativeHeaders: Option<seq<(string, string)>>,
    body: string,
    query: map<string, string>,
    cookies: map<string, string>,
    isSsl: bool,
    isAdmin: bool,
    user: User)

  /**
   * `home_url($path)`: the home option, then, for a truthy path, one slash
   * and the path with its leading slashes removed.
   */
  function HomeUrl(home: string, path: string): (r: string)
    ensures Empty(Str(path)) ==> r == home
    ensures Truthy(Str(path)) ==> StartsWith(r, home + "/") && |r| > |home|
  {
    if Truthy(Str(path)) then home + "/" + LTrimChar(path, '/') else home
  }

  /** A path with exactly one leading slash is appended as written. */
  lemma HomeUrlOfRootedPath(home: string, rest: string)
    requires rest == [] || rest[0] != '/'
    ensures HomeUrl(home, "/" + rest) == home + "/" + rest
  {
    var path := "/" + rest;
    assert path[0] == '/' && path[1..] == rest;
    assert Truthy(Str(path)) by { assert path != "0"; }
    assert LTrimChar(path, '/') == LTrimChar(rest, '/') == rest;
  }

  /**
   * The `wp_options` rows the agent uses. `agent` is 'mrwp_agent' (None
   * while the row does not exist); the logs read as `[]` and the last update
   * check as 0 when absent.
   */
  class Options {
    var agent: Option<map<string, Value>>
    var lastUpdateCheck: Option<int>
    var debugNotices: seq<Stamped<string>>
    var apiLog: seq<Stamped<ApiRequest>>
    var emailLog: seq<Stamped<EmailActivity>>

    constructor (agent: Option<map<string, Value>>, lastUpdateCheck: Option<int>)
      ensures this.agent == agent && this.lastUpdateCheck == lastUpdateCheck
      ensures debugNotices == [] && apiLog == [] && emailLog == []
    {
      this.agent := agent;
      this.lastUpdateCheck := lastUpdateCheck;
      debugNotices := [];
      apiLog := [];
      emailLog := [];
    }

    /** `get_option('mrwp_agent', [])`. */
    function AgentOptions(): map<string, Value>
      reads this`agent
    {
      if agent.Some? then agent.value else map[]
    }

    /**
     * `update_option('mrwp_agent', $value)`: afterwards the row holds the
     * value; the result says whether that changed the row (false when the
     * value was already stored, true when the row was created).
     */
    method UpdateAgent(value: map<string, Value>) returns (changed: bool)
      modifies this`agent
      ensures agent == Some(value)
      ensures changed <==> old(agent) != Some(value)
    {
      changed := agent != Some(value);
      agent := Some(value);
    }
  }
}
