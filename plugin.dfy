/**
 * The plugin's bootstrap: the activation and deactivation callbacks that
 * provision and clean up the 'mrwp_agent' option, and the class autoloader.
 */
module Plugin {
  import opened Php
  import Wp
  import AgentCore
  import Security
  import Maintenance
  import Status
  import Settings

  const NamespacePrefix: string := "MRWP\\Agent\\"
  const SecretLength: nat := 64
  const BypassCodeLength: nat := 24

  const MaintenanceFlag: string := "maintenance_enabled"
  const DebugFlag: string := "debug_enabled"

  /** The defaults `activate()` merges under the stored options. */
  const Defaults: map<string, Value> := map[
    "hub_url" := Str(""),
    "client_email" := Str(""),
    MaintenanceFlag := Bool(false),
    DebugFlag := Bool(false)]

  /** The defaults do not cover the two generated secrets. */
  lemma DefaultsLeaveSecrets()
    ensures "site_secret" !in Defaults && "bypass_code" !in Defaults
  {
    assert Defaults.Keys == {"hub_url", "client_email", MaintenanceFlag, DebugFlag};
    assert "site_secret"[0] == 's' && "bypass_code"[0] == 'b';
    assert "hub_url"[0] == 'h' && "client_email"[0] == 'c' && MaintenanceFlag[0] == 'm' && DebugFlag[0] == 'd';
  }

  /** `empty($options[$k])`: absent, or present with an empty value. */
  predicate EmptyAt(opts: map<string, Value>, k: string) {
    k !in opts || Empty(opts[k])
  }

  // ---------------------------------------------------------------------
  // Activation

  /**
   * The options `activate()` writes, given the secrets it generated: an empty
   * site secret or bypass code is replaced, then every default the options do
   * not already have is added (`array_merge($defaults, $options)`, so stored
   * values win).
   */
  function Activated(opts: map<string, Value>, secret: string, code: string): (r: map<string, Value>)
    ensures r.Keys == opts.Keys + Defaults.Keys + {"site_secret", "bypass_code"}
    ensures r["site_secret"] == if EmptyAt(opts, "site_secret") then Str(secret) else opts["site_secret"]
    ensures r["bypass_code"] == if EmptyAt(opts, "bypass_code") then Str(code) else opts["bypass_code"]
    ensures forall k :: k in opts && k != "site_secret" && k != "bypass_code" ==> r[k] == opts[k]
    ensures forall k :: k in Defaults && k !in opts ==> r[k] == Defaults[k]
  {
    var withSecret := if EmptyAt(opts, "site_secret") then opts["site_secret" := Str(secret)] else opts;
    var withCode := if EmptyAt(withSecret, "bypass_code") then withSecret["bypass_code" := Str(code)] else withSecret;
    assert withCode.Keys == opts.Keys + {"site_secret", "bypass_code"};
    assert withCode["site_secret"] == if EmptyAt(opts, "site_secret") then Str(secret) else opts["site_secret"];
    assert forall k :: k in opts && k != "site_secret" && k != "bypass_code" ==> withCode[k] == opts[k];
    DefaultsLeaveSecrets();
    Defaults + withCode
  }

  /** A string of at least two characters is never empty in PHP's sense. */
  lemma LongStringTruthy(s: string)
    requires |s| >= 2
    ensures Truthy(Str(s))
  {
    assert s != "0" by { assert |"0"| == 1; }
  }

  /**
   * After activation with secrets of the generated lengths, the site has a
   * non-empty secret and a non-empty bypass code, and the maintenance and
   * debug flags are set (to their stored values, or off by default).
   */
  lemma ActivationProvisions(opts: map<string, Value>, secret: string, code: string)
    requires |secret| == SecretLength && |code| == BypassCodeLength
    ensures var r := Activated(opts, secret, code);
      Truthy(r["site_secret"]) && Truthy(r["bypass_code"]) && MaintenanceFlag in r && DebugFlag in r
    ensures MaintenanceFlag !in opts ==> Empty(AgentCore.OptionOr(Activated(opts, secret, code), MaintenanceFlag, Bool(false)))
  {
    LongStringTruthy(secret);
    LongStringTruthy(code);
  }

  /**
   * Activating again, once the secrets are set, changes nothing: reactivation
   * keeps the secret the hub knows and the bypass links already sent.
   */
  lemma ActivationIdempotent(opts: map<string, Value>, secret: string, code: string, secret2: string, code2: string)
    requires Truthy(Str(secret)) && Truthy(Str(code))
    ensures Activated(Activated(opts, secret, code), secret2, code2) == Activated(opts, secret, code)
  {
    var once := Activated(opts, secret, code);
    var twice := Activated(once, secret2, code2);
    assert !EmptyAt(once, "site_secret") && !EmptyAt(once, "bypass_code");
    assert twice.Keys == once.Keys;
    forall k | k in twice
      ensures twice[k] == once[k]
    {
    }
  }

  /**
   * `activate()`: read the options, generate a 64-character secret and a
   * 24-character bypass code where they are empty, and write the merged
   * options. When `random_int` throws, nothing is written.
   */
  method Activate(store: Wp.Options) returns (raised: Option<string>, secret: string, code: string)
    modifies store`agent
    ensures raised.Some? ==> store.agent == old(store.agent)
    ensures raised.None? ==> store.agent == Some(Activated(old(store.AgentOptions()), secret, code))
    ensures raised.None? && EmptyAt(old(store.AgentOptions()), "site_secret") ==>
      |secret| == SecretLength && forall i :: 0 <= i < |secret| ==> secret[i] in Security.Alphabet
    ensures raised.None? && EmptyAt(old(store.AgentOptions()), "bypass_code") ==>
      |code| == BypassCodeLength && forall i :: 0 <= i < |code| ==> code[i] in Security.Alphabet
  {
    var opts := store.AgentOptions();
    secret, code := "", "";
    if EmptyAt(opts, "site_secret") {
      var s := Security.GenerateRandomString(SecretLength);
      if s.Raised? {
        raised := Some(s.message);
        return;
      }
      secret := s.value;
    }
    if EmptyAt(opts, "bypass_code") {
      var c := Security.GenerateRandomString(BypassCodeLength);
      if c.Raised? {
        raised := Some(c.message);
        return;
      }
      code := c.value;
    }
    var _ := store.UpdateAgent(Activated(opts, secret, code));
    raised := None;
  }

  // ---------------------------------------------------------------------
  // Deactivation

  /** The options after `deactivate()`, when each write stores what it is given. */
  function Deactivated(opts: map<string, Value>): (r: map<string, Value>)
    ensures r.Keys == opts.Keys
    ensures Empty(AgentCore.OptionOr(r, MaintenanceFlag, Bool(false)))
    ensures Empty(AgentCore.OptionOr(r, DebugFlag, Bool(false)))
    ensures forall k :: k in opts && k != MaintenanceFlag && k != DebugFlag ==> r[k] == opts[k]
    ensures EmptyAt(opts, MaintenanceFlag) && EmptyAt(opts, DebugFlag) ==> r == opts
  {
    var o1 := if !EmptyAt(opts, MaintenanceFlag) then opts[MaintenanceFlag := Bool(false)] else opts;
    if !EmptyAt(o1, DebugFlag) then o1[DebugFlag := Bool(false)] else o1
  }

  lemma DeactivationIdempotent(opts: map<string, Value>)
    ensures Deactivated(Deactivated(opts)) == Deactivated(opts)
  {
    var once := Deactivated(opts);
    assert EmptyAt(once, MaintenanceFlag) by {
      assert Empty(AgentCore.OptionOr(once, MaintenanceFlag, Bool(false)));
    }
    assert EmptyAt(once, DebugFlag) by {
      assert Empty(AgentCore.OptionOr(once, DebugFlag, Bool(false)));
    }
  }

  /**
   * Once deactivated, the maintenance gate lets every request through and the
   * site status reports both modes off.
   */
  lemma DeactivationLiftsModes(opts: map<string, Value>, req: Wp.Request, site: Wp.Site, wpVersion: string,
                               phpVersion: string, counts: Status.UpdateCounts, now: int)
    ensures var r := Deactivated(opts);
      Maintenance.CheckMaintenanceMode(AgentCore.OptionOr(r, MaintenanceFlag, Bool(false)), req,
        AgentCore.OptionOr(r, "bypass_code", Str(""))) == Maintenance.Pass(Maintenance.MaintenanceOff)
    ensures var s := Status.SiteStatusOf(site, wpVersion, phpVersion, counts, Deactivated(opts), now);
      !s.maintenanceEnabled && !s.debugEnabled
  {
  }

  /**
   * `deactivate()`: switch off maintenance mode, then debug mode, each with
   * its own `update_option` and only when it is on.
   */
  method Deactivate(store: Wp.Options) returns (writes: nat)
    modifies store`agent
    ensures var opts := old(store.AgentOptions());
      writes == (if EmptyAt(opts, MaintenanceFlag) then 0 else 1) + (if EmptyAt(opts, DebugFlag) then 0 else 1)
    ensures writes == 0 ==> store.agent == old(store.agent)
    ensures writes > 0 ==> store.agent == Some(Deactivated(old(store.AgentOptions())))
  {
    var opts := store.AgentOptions();
    writes := 0;
    if !EmptyAt(opts, MaintenanceFlag) {
      opts := opts[MaintenanceFlag := Bool(false)];
      var _ := store.UpdateAgent(opts);
      writes := writes + 1;
    }
    if !EmptyAt(opts, DebugFlag) {
      opts := opts[DebugFlag := Bool(false)];
      var _ := store.UpdateAgent(opts);
      writes := writes + 1;
    }
  }

  /**
   * The options after `deactivate()` runs on an admin screen, where the
   * settings page has registered `sanitize_settings` for the option: each
   * write stores the sanitiser's rebuild of the then stored options, which
   * takes only 'hub_url' and 'client_email' from the value written.
   */
  function DeactivatedFromAdmin(opts: map<string, Value>, site: Wp.Site): (r: map<string, Value>)
    ensures forall k :: k != "hub_url" && k != "client_email" ==> (k in r <==> k in opts)
    ensures forall k :: k in opts && k != "hub_url" && k != "client_email" ==> r[k] == opts[k]
  {
    var o1 := if !EmptyAt(opts, MaintenanceFlag) then opts[MaintenanceFlag := Bool(false)] else opts;
    var stored1 := if !EmptyAt(opts, MaintenanceFlag) then Settings.SanitizeSettings(opts, o1, site).options else opts;
    if !EmptyAt(o1, DebugFlag) then Settings.SanitizeSettings(stored1, o1[DebugFlag := Bool(false)], site).options
    else stored1
  }

  /**
   * Deactivating from the plugins screen leaves both modes as they were: a
   * site in maintenance mode stays blocked, and comes back blocked when the
   * plugin is reactivated.
   */
  lemma AdminDeactivationKeepsModes(opts: map<string, Value>, site: Wp.Site)
    ensures var r := DeactivatedFromAdmin(opts, site);
      AgentCore.OptionOr(r, MaintenanceFlag, Bool(false)) == AgentCore.OptionOr(opts, MaintenanceFlag, Bool(false))
      && AgentCore.OptionOr(r, DebugFlag, Bool(false)) == AgentCore.OptionOr(opts, DebugFlag, Bool(false))
  {
  }

  /** A site in maintenance mode: deactivated from the admin it stays on, as intended it goes off. */
  lemma AdminDeactivationCounterexample(site: Wp.Site)
    ensures var opts := map[MaintenanceFlag := Bool(true)];
      DeactivatedFromAdmin(opts, site)[MaintenanceFlag] == Bool(true)
      && Deactivated(opts)[MaintenanceFlag] == Bool(false)
  {
    var opts := map[MaintenanceFlag := Bool(true)];
    AdminDeactivationKeepsModes(opts, site);
  }

  // ---------------------------------------------------------------------
  // The autoloader

  /**
   * `autoload($class_name)`: only names starting with the plugin's namespace
   * are handled; the prefix is removed wherever it occurs and the rest names
   * a file under 'includes/', loaded only when it exists.
   */
  function Autoload(className: string, pluginPath: string, fileExists: string -> bool): (r: Option<string>)
    ensures !StartsWith(className, NamespacePrefix) ==> r.None?
    ensures r.Some? ==> fileExists(r.value) && StartsWith(r.value, pluginPath + "includes/")
  {
    if !StartsWith(className, NamespacePrefix) then None
    else
      var file := pluginPath + "includes/" + ReplaceAll(className, NamespacePrefix, "") + ".php";
      assert file == (pluginPath + "includes/") + (ReplaceAll(className, NamespacePrefix, "") + ".php");
      if fileExists(file) then Some(file) else None
  }

  /** A class of the namespace loads the file named after the rest of its name. */
  lemma AutoloadOfClass(rest: string, pluginPath: string, fileExists: string -> bool)
    requires !Contains(rest, NamespacePrefix)
    ensures var file := pluginPath + "includes/" + rest + ".php";
      Autoload(NamespacePrefix + rest, pluginPath, fileExists) == if fileExists(file) then Some(file) else None
  {
    var name := NamespacePrefix + rest;
    assert StartsWith(name, NamespacePrefix) by { assert name[..|NamespacePrefix|] == NamespacePrefix; }
    ReplaceAllPrefix(NamespacePrefix, rest, "");
    assert ReplaceAll(name, NamespacePrefix, "") == rest by { assert "" + rest == rest; }
  }

  // ---------------------------------------------------------------------
  // The plugin object

  /** The main plugin object; its constructor only registers hooks. */
  class Tools {
    const version: string

    constructor ()
      ensures version == Status.PluginVersion
    {
      version := Status.PluginVersion;
    }
  }

  /** The static `$instance` of `MRWP_Tools`, null until first asked for. */
  class ToolsSlot {
    var instance: Tools?

    constructor ()
      ensures instance == null
    {
      instance := null;
    }

    /** `MRWP_Tools::instance()`: create on the first call, then always the same object. */
    method Instance() returns (t: Tools)
      modifies this
      ensures instance == t
      ensures old(instance) != null ==> t == old(instance)
      ensures old(instance) == null ==> fresh(t)
    {
      if instance == null {
        instance := new Tools();
      }
      t := instance;
    }
  }
}
