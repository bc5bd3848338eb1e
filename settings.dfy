/**
 * The admin settings page: the sanitiser registered for the 'mrwp_agent'
 * option, the form handler, and the two small guards of the page (the
 * secret preview and the stylesheet hook).
 */
module Settings {
  import opened Php
  import Wp
  import AgentCore

  const PageSlug: string := "mrwp-tools-settings"

  /** A message queued with `add_settings_error` for 'mrwp_tools_messages'. */
  datatype Message = Message(code: string, text: string, kind: string)

  const InvalidEmail: Message := Message("invalid_email", "Invalid email address.", "error")
  const SavedMessage: Message := Message("mrwp_tools_message", "Settings saved successfully.", "updated")
  const SaveErrorMessage: Message := Message("mrwp_tools_message", "Error saving settings.", "error")

  /** PHP `isset($a[$k])`. */
  predicate IsSet(a: map<string, Value>, k: string) {
    k in a && a[k] != Null
  }

  /** What `sanitize_settings()` returns, with the messages it queued. */
  datatype Sanitized = Sanitized(options: map<string, Value>, messages: seq<Message>)

  /** The e-mail address the sanitiser would store, if it is acceptable. */
  predicate AcceptableEmail(site: Wp.Site, raw: Value) {
    var email := site.sanitizeEmail(ToPhpString(raw));
    Truthy(Str(email)) && site.isEmail(email)
  }

  /**
   * `sanitize_settings($input)`: start from the stored options; only
   * 'hub_url' (through `esc_url_raw`) and 'client_email' (through
   * `sanitize_email`, and only when the result is a valid address) are taken
   * from the input. A rejected address keeps the stored one and queues one
   * 'invalid_email' message.
   */
  function SanitizeSettings(current: map<string, Value>, input: map<string, Value>, site: Wp.Site): (r: Sanitized)
    ensures forall k :: k != "hub_url" && k != "client_email" ==> (k in r.options <==> k in current)
    ensures forall k :: k in current && k != "hub_url" && k != "client_email" ==> r.options[k] == current[k]
    ensures IsSet(input, "hub_url") ==>
      "hub_url" in r.options && r.options["hub_url"] == Str(site.escUrlRaw(ToPhpString(input["hub_url"])))
    ensures !IsSet(input, "hub_url") ==>
      ("hub_url" in r.options <==> "hub_url" in current) &&
      ("hub_url" in current ==> r.options["hub_url"] == current["hub_url"])
    ensures IsSet(input, "client_email") && AcceptableEmail(site, input["client_email"]) ==>
      "client_email" in r.options &&
      r.options["client_email"] == Str(site.sanitizeEmail(ToPhpString(input["client_email"])))
    ensures !(IsSet(input, "client_email") && AcceptableEmail(site, input["client_email"])) ==>
      ("client_email" in r.options <==> "client_email" in current) &&
      ("client_email" in current ==> r.options["client_email"] == current["client_email"])
    ensures r.messages == if IsSet(input, "client_email") && !AcceptableEmail(site, input["client_email"]) then [InvalidEmail] else []
  {
    var withHub := if IsSet(input, "hub_url") then current["hub_url" := Str(site.escUrlRaw(ToPhpString(input["hub_url"])))] else current;
    if IsSet(input, "client_email") then
      var email := site.sanitizeEmail(ToPhpString(input["client_email"]));
      if Truthy(Str(email)) && site.isEmail(email) then Sanitized(withHub["client_email" := Str(email)], [])
      else Sanitized(withHub, [InvalidEmail])
    else Sanitized(withHub, [])
  }

  /** An input without the two form fields writes back exactly the stored options. */
  lemma SanitizerIgnoresOtherKeys(current: map<string, Value>, input: map<string, Value>, site: Wp.Site)
    requires !IsSet(input, "hub_url") && !IsSet(input, "client_email")
    ensures SanitizeSettings(current, input, site) == Sanitized(current, [])
  {
  }

  /** What the settings page does for a request. */
  datatype PageAction = PageDenied(reason: string) | ProcessForm | ShowPage

  /**
   * `settings_page()`: users without `manage_options` are stopped with
   * `wp_die`; the form is processed only for a POST with 'submit' and a
   * valid nonce.
   */
  function SettingsPage(canManage: bool, hasSubmit: bool, nonceValid: bool): (r: PageAction)
    ensures r.PageDenied? <==> !canManage
    ensures r == ProcessForm <==> canManage && hasSubmit && nonceValid
  {
    if !canManage then PageDenied("You do not have sufficient permissions to access this page.")
    else if hasSubmit && nonceValid then ProcessForm
    else ShowPage
  }

  /** The outcome of `handle_form_submission()`. */
  datatype FormOutcome = FormDenied(reason: string) | FormSaved(messages: seq<Message>)

  /** The save message as the source chooses it: from the result of `update_option`. */
  function SaveNoticeAsWritten(updated: bool): (m: Message)
    ensures m == SavedMessage <==> updated
  {
    if updated then SavedMessage else SaveErrorMessage
  }

  /**
   * The save message as intended: success exactly when the option now holds
   * what the form asked to store.
   */
  function SaveNotice(stored: map<string, Value>, intended: map<string, Value>): (m: Message)
    ensures m == SavedMessage <==> stored == intended
    ensures m != SavedMessage ==> m == SaveErrorMessage
  {
    if stored == intended then SavedMessage else SaveErrorMessage
  }

  /**
   * `handle_form_submission()`: merge the submitted fields over the stored
   * options (submitted values win) and write the result; on admin screens
   * the write passes through `sanitize_settings`, registered for the option
   * by `init_settings()`. The page shows the sanitiser's messages and then the
   * save message.
   */
  method HandleFormSubmission(agent: AgentCore.Agent, site: Wp.Site, canManage: bool, submitted: Option<map<string, Value>>)
    returns (r: FormOutcome)
    modifies agent.options`agent
    ensures !canManage ==>
      r == FormDenied("You do not have sufficient permissions to perform this action.") &&
      agent.options.agent == old(agent.options.agent)
    ensures canManage ==>
      var current := old(agent.GetOptions());
      var merged := current + (if submitted.Some? then submitted.value else map[]);
      var written := SanitizeSettings(current, merged, site);
      agent.GetOptions() == written.options && r == FormSaved(written.messages + [SavedMessage])
  {
    if !canManage {
      return FormDenied("You do not have sufficient permissions to perform this action.");
    }
    var current := agent.GetOptions();
    var data := if submitted.Some? then submitted.value else map[];
    var merged := current + data;
    var written := SanitizeSettings(current, merged, site);
    var _ := agent.UpdateOptions(written.options);
    r := FormSaved(written.messages + [SaveNotice(agent.GetOptions(), written.options)]);
  }

  /**
   * Saving the form unchanged: when the stored hub URL and client email are
   * already in sanitised form, writing them back changes nothing, so
   * `update_option` returns false and the source reports "Error saving
   * settings." although the options hold exactly what was submitted; the
   * intended message is the success message.
   */
  lemma UnchangedSaveReportsError(current: map<string, Value>, site: Wp.Site, hub: string, email: string)
    requires "hub_url" in current && current["hub_url"] == Str(hub) && site.escUrlRaw(hub) == hub
    requires "client_email" in current && current["client_email"] == Str(email)
    requires site.sanitizeEmail(email) == email && Truthy(Str(email)) && site.isEmail(email)
    ensures var written := SanitizeSettings(current, current + map["hub_url" := Str(hub), "client_email" := Str(email)], site);
      written.options == current
      && SaveNoticeAsWritten(Some(written.options) != Some(current)) == SaveErrorMessage
      && SaveNotice(current, written.options) == SavedMessage
  {
    var input := current + map["hub_url" := Str(hub), "client_email" := Str(email)];
    assert input["hub_url"] == Str(hub) && input["client_email"] == Str(email);
    var written := SanitizeSettings(current, input, site);
    assert written.options == current;
  }

  /** `$options['site_secret'] ?? ''`, cut to its first 8 characters and followed by "...". */
  function SecretPreview(opts: map<string, Value>): (r: string)
    ensures |r| <= 11
    ensures var secret := if IsSet(opts, "site_secret") then ToPhpString(opts["site_secret"]) else "";
      r == Prefix(secret, 8) + "..."
  {
    var secret := if IsSet(opts, "site_secret") then ToPhpString(opts["site_secret"]) else "";
    Prefix(secret, 8) + "..."
  }

  /** A provisioned 64-character secret shows only its first 8 characters. */
  lemma PreviewHidesSecret(opts: map<string, Value>, secret: string)
    requires "site_secret" in opts && opts["site_secret"] == Str(secret) && |secret| == 64
    ensures SecretPreview(opts) == secret[..8] + "..."
    ensures SecretPreview(opts) != secret
  {
    assert |SecretPreview(opts)| == 11;
  }

  /** `enqueue_admin_scripts($hook)` adds its stylesheet only on the plugin's own settings screen. */
  function EnqueuesAdminStyles(hook: string): (r: bool)
    ensures r <==> hook == "settings_page_mrwp-tools-settings"
  {
    hook == "settings_page_" + PageSlug
  }
}
