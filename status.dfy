/**
 * Site status as the agent reports it: the bypass link derived from the
 * stored code, the update counts, the hourly update-check throttle and the
 * summaries returned by the ping and status routes.
 */
module Status {
  import opened Php
  import Wp
  import AgentCore

  /** MRWP_TOOLS_VERSION. */
  const PluginVersion: string := "1.0.0"

  /** Update data is refreshed at most once an hour. */
  const UpdateCheckInterval: int := 3600

  /** `get_bypass_link()` for a stored code: '' when there is none, else the home URL with the code as query. */
  function BypassLink(home: string, code: Value): (r: string)
    ensures r == "" <==> Empty(code)
  {
    if Empty(code) then "" else Wp.HomeUrl(home, "/?bypass_code=" + ToPhpString(code))
  }

  /**
   * A configured code appears as the `bypass_code` query parameter of the
   * home URL, as PHP's `.` prints it (a string code verbatim).
   */
  lemma BypassLinkCarriesCode(home: string, code: Value)
    requires Truthy(code)
    ensures BypassLink(home, code) == home + "/?bypass_code=" + ToPhpString(code)
    ensures code.Str? ==> BypassLink(home, code) == home + "/?bypass_code=" + code.s
  {
    QueryLink(home, ToPhpString(code));
  }

  /** `home_url('/?bypass_code=' . $text)` appends the query to the home URL. */
  lemma QueryLink(home: string, text: string)
    ensures Wp.HomeUrl(home, "/?bypass_code=" + text) == home + "/?bypass_code=" + text
  {
    var rest := "?bypass_code=" + text;
    assert "/?bypass_code=" == "/" + "?bypass_code=";
    assert "/?bypass_code=" + text == "/" + rest;
    assert rest[0] == '?';
    Wp.HomeUrlOfRootedPath(home, rest);
  }

  /** `get_bypass_link()` with the code read from the agent's options. */
  function GetBypassLink(agent: AgentCore.Agent, home: string): (link: string)
    reads agent.options
    ensures link == "" <==> Empty(agent.GetOption("bypass_code", Str("")))
    ensures Truthy(agent.GetOption("bypass_code", Str(""))) ==>
      link == home + "/?bypass_code=" + ToPhpString(agent.GetOption("bypass_code", Str("")))
  {
    var code := agent.GetOption("bypass_code", Str(""));
    if Truthy(code) then
      BypassLinkCarriesCode(home, code);
      BypassLink(home, code)
    else
      BypassLink(home, code)
  }

  /** One entry of `get_core_updates()`; `response` is Null where the property is not set. */
  datatype CoreUpdate = CoreUpdate(response: Value)

  /** Whether some offered core update is an upgrade (`response === 'upgrade'`). */
  predicate OffersUpgrade(updates: seq<CoreUpdate>) {
    exists i :: 0 <= i < |updates| && updates[i].response == Str("upgrade")
  }

  /** `get_core_updates_count()`: 1 when an upgrade is offered, else 0; `false` (None) and [] give 0. */
  method CoreUpdatesCount(updates: Option<seq<CoreUpdate>>) returns (n: int)
    ensures n == if updates.Some? && OffersUpgrade(updates.value) then 1 else 0
  {
    if updates.None? || updates.value == [] {
      return 0;
    }
    var list := updates.value;
    var i := 0;
    while i < |list|
      invariant 0 <= i <= |list|
      invariant forall j :: 0 <= j < i ==> list[j].response != Str("upgrade")
    {
      if list[i].response.Str? && list[i].response.s == "upgrade" {
        return 1;
      }
      i := i + 1;
    }
    return 0;
  }

  /** `is_array($updates) ? count($updates) : 0`, for plugin and theme updates. */
  function UpdatesCount(updates: Value): (n: int)
    ensures n >= 0
    ensures n == 0 <==> !updates.Arr? || updates.entries == []
    ensures updates.Arr? ==> n == |updates.entries|
  {
    if updates.Arr? then |updates.entries| else 0
  }

  /** Whether `maybe_check_for_updates` refreshes: more than an hour (strictly) since the last check, 0 when never. */
  predicate DueForCheck(lastCheck: Option<int>, now: int) {
    now - (if lastCheck.Some? then lastCheck.value else 0) > UpdateCheckInterval
  }

  /** `maybe_check_for_updates()`: when due, refresh and record the time; the refresh itself is not modelled. */
  method MaybeCheckForUpdates(store: Wp.Options, now: int) returns (refreshed: bool)
    modifies store`lastUpdateCheck
    ensures refreshed <==> DueForCheck(old(store.lastUpdateCheck), now)
    ensures store.lastUpdateCheck == if refreshed then Some(now) else old(store.lastUpdateCheck)
  {
    var lastCheck := if store.lastUpdateCheck.Some? then store.lastUpdateCheck.value else 0;
    refreshed := now - lastCheck > UpdateCheckInterval;
    if refreshed {
      store.lastUpdateCheck := Some(now);
    }
  }

  /** After a refresh at t no refresh is due for the next hour, and one is due just after it. */
  lemma RefreshThrottled(t: int, later: int)
    requires t <= later
    ensures DueForCheck(Some(t), later) <==> later > t + UpdateCheckInterval
    ensures !DueForCheck(Some(t), t + UpdateCheckInterval) && DueForCheck(Some(t), t + UpdateCheckInterval + 1)
  {
  }

  /** The update counts `get_update_counts` returns. */
  datatype UpdateCounts = UpdateCounts(core: int, plugins: int, themes: int)

  /** The array `get_site_status` returns. */
  datatype SiteStatus = SiteStatus(
    siteName: string,
    homeUrl: string,
    wpVersion: string,
    phpVersion: string,
    coreUpdatesCount: int,
    pluginUpdatesCount: int,
    themeUpdatesCount: int,
    maintenanceEnabled: bool,
    debugEnabled: bool,
    bypassLink: string,
    lastSyncedAt: int)

  /** `!empty($options[$key])`: an unset key reads as false. */
  predicate Flag(opts: map<string, Value>, key: string) {
    key in opts && Truthy(opts[key])
  }

  /** `!empty($options[$key])` and `!empty(get_option($key, false))` agree. */
  lemma FlagReadsOption(opts: map<string, Value>, key: string)
    ensures Flag(opts, key) <==> Truthy(AgentCore.OptionOr(opts, key, Bool(false)))
  {
  }

  /** `get_site_status()` on the stored options, with the update counts and versions given. */
  function SiteStatusOf(site: Wp.Site, wpVersion: string, phpVersion: string, counts: UpdateCounts,
                        opts: map<string, Value>, now: int): (r: SiteStatus)
    ensures r.maintenanceEnabled <==> Truthy(AgentCore.OptionOr(opts, "maintenance_enabled", Bool(false)))
    ensures r.debugEnabled <==> Truthy(AgentCore.OptionOr(opts, "debug_enabled", Bool(false)))
    ensures r.bypassLink == BypassLink(site.home, AgentCore.OptionOr(opts, "bypass_code", Str("")))
    ensures r.homeUrl == site.home && r.lastSyncedAt == now
    ensures r.siteName == site.name && r.wpVersion == wpVersion && r.phpVersion == phpVersion
    ensures r.coreUpdatesCount == counts.core && r.pluginUpdatesCount == counts.plugins && r.themeUpdatesCount == counts.themes
  {
    FlagReadsOption(opts, "maintenance_enabled");
    FlagReadsOption(opts, "debug_enabled");
    assert Wp.HomeUrl(site.home, "") == site.home by { assert Empty(Str("")); }
    SiteStatus(site.name, Wp.HomeUrl(site.home, ""), wpVersion, phpVersion,
      counts.core, counts.plugins, counts.themes,
      Flag(opts, "maintenance_enabled"), Flag(opts, "debug_enabled"),
      BypassLink(site.home, AgentCore.OptionOr(opts, "bypass_code", Str(""))), now)
  }

  /** What the public ping returns: `get_basic_info()`. */
  datatype BasicInfo = BasicInfo(ok: bool, site: string, name: string, version: string)

  function GetBasicInfo(site: Wp.Site): (r: BasicInfo)
    ensures r.ok && r.site == site.home && r.name == site.name && r.version == PluginVersion
  {
    assert Wp.HomeUrl(site.home, "") == site.home by { assert Empty(Str("")); }
    BasicInfo(true, Wp.HomeUrl(site.home, ""), site.name, PluginVersion)
  }

  /** The public ping and the authenticated status name the same site by the same URL. */
  lemma BasicInfoAgreesWithStatus(site: Wp.Site, wpVersion: string, phpVersion: string, counts: UpdateCounts,
                                  opts: map<string, Value>, now: int)
    ensures var info := GetBasicInfo(site);
      var status := SiteStatusOf(site, wpVersion, phpVersion, counts, opts, now);
      info.site == status.homeUrl && info.name == status.siteName
  {
  }

  /** `get_plugin_info()`. */
  datatype PluginInfo = PluginInfo(totalPlugins: int, activePlugins: int, inactivePlugins: int, version: string, active: bool)

  /**
   * The counts from `get_plugins()` and the 'active_plugins' option. Inactive
   * is the difference, which is negative when the option still lists
   * plugins that are no longer installed.
   */
  function GetPluginInfo(allPlugins: seq<string>, activePlugins: seq<string>): (r: PluginInfo)
    ensures r.totalPlugins == |allPlugins| && r.activePlugins == |activePlugins|
    ensures r.activePlugins + r.inactivePlugins == r.totalPlugins
    ensures r.inactivePlugins >= 0 <==> |activePlugins| <= |allPlugins|
    ensures r.version == PluginVersion && r.active
  {
    PluginInfo(|allPlugins|, |activePlugins|, |allPlugins| - |activePlugins|, PluginVersion, true)
  }
}
