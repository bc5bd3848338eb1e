# Mr.WordPress Tools agent: a verified model

Mr.WordPress Tools is a WordPress plugin that lets a remote "hub" manage a
site through a small signed REST API under `/wp-json/mrwp/v1/`: a public
`/ping`, an authenticated `/status`, and an authenticated `/action` that
toggles maintenance mode or debug mode, regenerates the maintenance bypass
code, or e-mails the bypass link to the site's client. WordPress adds a
public namespace index, `GET /wp-json/mrwp/v1`, which lists those routes.
This project models
the agent's decision and state logic in Dafny and proves what the code
promises about it.

The model is one module per component of the plugin, plus three small
modules for what they stand on:

- `Php` (php.dfy): PHP values (`null`, booleans, integers, strings, ordered
  arrays), `empty()`, `(string)` conversion, `intval` on a 64-bit build,
  PHP 8 loose comparison against a `switch` label, and the string functions
  the code calls.
- `Logs` (logs.dfy): the bounded logs kept in options: append then keep
  the last N, and newest-first reading with `usort` and `array_slice`.
- `Wp` (wp.dfy): the WordPress helpers as fixed functions of a `Site`
  record (`is_email`, `sanitize_email`, `esc_url_raw`, `parse_url`, ...), the
  request as a `Request` record, and the rows of `wp_options` the core reads
  and writes as the fields of class `Options`. With no sanitiser hooked on
  the option, `update_option` stores its value and returns whether the value
  changed. On admin screens the settings page hooks one on 'mrwp_agent',
  which rewrites the value before it is compared and stored
  (`Plugin.DeactivatedFromAdmin`, Findings).
- `AgentCore` (agent.dfy): the `Agent` singleton with its components and the
  option accessors every toggle is built on.
- `Security`, `Maintenance`, `Status`, `Debug`, `Email`, `Rest`,
  `Settings` and `Plugin`: the eponymous PHP classes and the main plugin file.

HMAC-SHA256 is a function parameter (`Security.Hmac`), `hash_equals` is
string equality, `random_int` is a nondeterministic choice in range that may
throw, and `time()` is a `now` parameter shared by one request. `wp_mail`
is a `Mailer` object that records every mail and accepts or refuses it by a
fixed function of the mail. PHP constants and `ini` settings are the fields
of `Debug.Runtime`. The debug log's size and directory writability are
given as `Debug.DebugFiles`.

Some behaviour of the source that is easy to get wrong:
- the bypass query parameter is handled on `init` for every request
  (includes/Maintenance.php:25), not as a step of the maintenance gate;
- the three authentication failures carry distinct codes and messages
  (`missing_auth_headers`, `invalid_timestamp`, `invalid_signature`,
  includes/Security.php:60-92);
- `/action` answers 500 when an action throws
  (mrwp-tools-plugin/includes/Rest.php:133-137);
- the site secret is 64 characters long
  (mrwp-tools-plugin/mrwp-tools.php:147-150).

## Model

| member | source | states |
|---|---|---|
| Php.IntValOfDecimal | includes/Security.php:69-70 | `intval` reads back every integer PHP prints on a 64-bit build, so a timestamp sent as `time()` is read as itself |
| Php.DecimalStringTruthy | includes/Security.php:60 | an integer's decimal text is PHP-falsy exactly when the integer is 0 |
| Php.ReplaceAllPrefix | mrwp-tools-plugin/mrwp-tools.php:93 | `str_replace` of a needle on needle + rest, where rest has no further occurrence, gives the replacement followed by rest |
| Php.ReplaceAllAbsent | mrwp-tools-plugin/mrwp-tools.php:93 | `str_replace` leaves a subject without the needle unchanged |
| Logs.KeepLast | mrwp-tools-plugin/includes/Rest.php:308-310 | truncation keeps the last n entries in their order, and all of them when there are at most n |
| Logs.AppendKeepsNewest | mrwp-tools-plugin/includes/Rest.php:302-312 | after an append the new entry is last, preceded by the n-1 most recent old entries in order, and the log holds at most n |
| Logs.AppendWithinBound | mrwp-tools-plugin/includes/Rest.php:308-310 | an append to a log under its bound loses nothing |
| Logs.KeepLastThenAppend | mrwp-tools-plugin/includes/Debug.php:273-275 | truncating before appending more keeps the same entries as truncating once afterwards |
| Logs.AppendAllKeepsLast | mrwp-tools-plugin/includes/Debug.php:264-278 | several notices added one at a time, each truncating, leave the last n of the old log and the new entries taken together |
| Logs.AppendAllConcat | mrwp-tools-plugin/includes/Debug.php:264-278 | adding a run of entries is adding its two parts in turn |
| Logs.SliceHead | mrwp-tools-plugin/includes/Rest.php:353 | `array_slice($log, 0, $limit)` is a prefix of min(limit, length) entries, and for a negative limit it stops that many entries before the end |
| Logs.InsertSorted | mrwp-tools-plugin/includes/Rest.php:349-351 | inserting into a newest-first sequence keeps it newest first and adds exactly that entry |
| Logs.SortNewestFirst | mrwp-tools-plugin/includes/Rest.php:349-351 | the `usort` by timestamp descending returns a permutation of the log that is newest first, and entries with equal timestamps keep their log order, as PHP 8's stable `usort` does |
| Logs.InsertStable | mrwp-tools-plugin/includes/Rest.php:349-351 | inserting an entry into a newest-first sequence places it after every entry with its timestamp |
| Logs.SortedCut | mrwp-tools-plugin/includes/Rest.php:349-353 | in a newest-first sequence nothing after a cut is newer than anything before it |
| Logs.NewestEntries | mrwp-tools-plugin/includes/Rest.php:345-354 | reading a log returns limit entries (or all of them), newest first, drawn from the log, and every entry left out is no newer than every entry returned; the entries returned with one timestamp are the first the log holds with it, in log order |
| Wp.HomeUrl | includes/Status.php:150 | `home_url($path)` is the home URL itself for an empty path and extends it with "/" otherwise |
| Wp.HomeUrlOfRootedPath | includes/Status.php:150 | `home_url('/' . $rest)` is the home URL, "/" and rest |
| Wp.Options.UpdateAgent | mrwp-tools-plugin/includes/Agent.php:137-139 | `update_option('mrwp_agent', $v)` stores v and returns true exactly when the stored value was different |
| AgentCore.ReadAfterWrite | mrwp-tools-plugin/includes/Agent.php:148-151 | after writing key k, reading k gives the value written (the default for null) and every other key reads as before |
| AgentCore.Flipped | mrwp-tools-plugin/includes/Debug.php:105-109 | a flip stores the boolean negation of what the key reads as (absent reads false) and keeps every other key |
| AgentCore.FlipTwice | includes/Maintenance.php:239-246 | two flips restore what the key reads as, restore the stored value exactly when it was a boolean, and otherwise leave its boolean reading |
| AgentCore.Agent.constructor | mrwp-tools-plugin/includes/Agent.php:45-69 | the agent registers security, status, maintenance, debug, email and rest, and settings only on admin requests |
| AgentCore.Agent.GetComponent | mrwp-tools-plugin/includes/Agent.php:118-120 | a registered component is returned and an unregistered name gives null |
| AgentCore.Agent.GetOptions | mrwp-tools-plugin/includes/Agent.php:127-129 | the options are the stored 'mrwp_agent' array, or the empty array when the option is absent |
| AgentCore.Agent.GetOption | mrwp-tools-plugin/includes/Agent.php:148-151 | a key that is set to a non-null value reads as that value; an absent or null key reads as the default (`isset`) |
| AgentCore.Agent.UpdateOptions | mrwp-tools-plugin/includes/Agent.php:137-139 | the whole option array is stored and the result is the store's "changed" answer |
| AgentCore.Agent.SetOption | mrwp-tools-plugin/includes/Agent.php:160-164 | the key reads as the value written, every other key reads as before, and the result is the store's "changed" answer |
| AgentCore.AgentSlot.Instance | mrwp-tools-plugin/includes/Agent.php:27-32 | the first call creates the agent and every later call returns that same object |
| Security.ServerKey | includes/Security.php:145 | the `$_SERVER` key of a header name is "HTTP_" followed, character by character, by the name upper-cased with each "-" as "_" |
| Security.CheckRequest | includes/Security.php:55-96 | missing headers are rejected first, exactly when either header is empty; a stale timestamp is rejected exactly when both headers are present and the timestamp is more than 300 seconds from now; acceptance needs a non-empty secret, a fresh timestamp and the HMAC of timestamp, newline and body |
| Security.HeaderNameOf | includes/Security.php:179 | the header name rebuilt from an `HTTP_*` key is as long as the key without "HTTP_" |
| Security.GetAllHeaders | includes/Security.php:170-185 | `getallheaders()` where it exists, else one header per `HTTP_*` server key with its rebuilt name |
| Security.FallbackHeadersFound | includes/Security.php:176-182 | the rebuilt header list holds a name exactly when some `HTTP_*` server key rebuilds to it |
| Security.FindHeader | includes/Security.php:153-162 | the fallback scan finds a value exactly when some header's lower-cased name is the lower-cased request name, and returns such a header's value |
| Security.GetHeader | includes/Security.php:143-163 | the server key's value when set, else the first case-insensitively matching header, else null |
| Security.HeaderNameRoundTrip | includes/Security.php:145 | a header name without "_" or spaces survives the trip to its server key and back, up to case |
| Security.CalculateHmacSignature | includes/Security.php:105-119 | the signature is empty exactly when the site secret is empty |
| Security.ValidateHmacSignature | includes/Security.php:55-96 | validation reads both headers, the stored secret and the raw body, and decides as `CheckRequest` |
| Security.MissingHeadersDecide | includes/Security.php:57-66 | a missing or falsy header ("" or "0") gives `missing_auth_headers`, whatever the other header, time, secret and body |
| Security.WindowCheck | includes/Security.php:68-78 | with both headers present, a timestamp more than 300 s from now gives `invalid_timestamp`, whatever the signature |
| Security.TimestampReadsBack | includes/Security.php:69-70 | a positive timestamp in decimal is a present header and reads back as itself |
| Security.WindowBoundary | includes/Security.php:13 | offsets of ±300 s pass the window check and offsets of ±301 s fail it |
| Security.FailsClosed | includes/Security.php:110-112 | with an empty site secret no request is accepted |
| Security.SignatureCheck | includes/Security.php:84-93 | within the window, a request is accepted exactly when its signature is the HMAC of the raw timestamp text, "\n" and the body |
| Security.GenerateHmacHeaders | includes/Security.php:127-135 | the outgoing headers are the timestamp and the signature, in that order |
| Security.Transmit | includes/Security.php:145 | each sent header arrives as its server key with its value as a string |
| Security.ServerKeysDiffer | includes/Security.php:57-58 | the two authentication headers have distinct server keys |
| Security.GeneratedHeadersValidate | includes/Security.php:127-135 | headers generated at time t for a body, found under their `HTTP_X_MRWP_*` keys among whatever else `$_SERVER` holds, are accepted at time t for that body under a non-empty secret |
| Security.AcceptedAtOwnTime | includes/Security.php:55-96 | a present timestamp that `intval` reads as the server time, sent with its own signature, passes the presence, window and signature checks |
| Security.GeneratedHeadersArrive | includes/Security.php:143-150 | when `$_SERVER` carries the generated timestamp and signature under their `HTTP_X_MRWP_*` keys, among any other entries, the header lookup returns them as their string forms |
| Security.AuthenticateDecision | includes/Security.php:29-48 | URIs outside the namespace and GET on ping pass on untouched; every other request passes only when accepted and is otherwise denied with its error |
| Security.AuthenticateRequest | includes/Security.php:29-48 | the `rest_authentication_errors` filter decides as `AuthenticateDecision` on the request's own verdict |
| Security.RandomInt | includes/Security.php:199 | `random_int($lo, $hi)` returns a value in range or throws |
| Security.GenerateRandomString | includes/Security.php:193-203 | the string has exactly the requested length (none for a negative one) and every character is from the 62 letters and digits |
| Maintenance.CheckMaintenanceMode | includes/Maintenance.php:31-61 | the gate passes when maintenance is off, then for admins, then in the admin area, then on the control API, then for a valid bypass cookie, each only when no earlier check passed; otherwise it blocks with 503 and `Retry-After: 3600` |
| Maintenance.IsBypassValid | includes/Maintenance.php:97-107 | a cookie validates only when it is present, the stored code is a non-empty string other than "0", and the two are equal |
| Maintenance.GateForRequest | mrwp-tools-plugin/includes/Agent.php:88-92 | the agent's hook runs the gate on the stored flag and code: it passes as off exactly when the flag is empty, passes for a bypass only with a valid cookie, and blocks exactly when the flag is on and no exemption or valid cookie applies |
| Maintenance.HandleBypassCode | includes/Maintenance.php:66-90 | a non-empty query code equal to the non-empty stored code earns a 24-hour `mrwp_bypass` cookie (path "/", secure on HTTPS, HttpOnly) and a redirect to the URL without the parameter; anything else has no effect |
| Maintenance.IssuedCookieValidates | includes/Maintenance.php:97-107 | the cookie issued for a code validates against that stored code |
| Maintenance.BypassLinkAdmits | includes/Maintenance.php:66-107 | following the bypass link and then visiting with its cookie passes the gate while maintenance is on |
| Maintenance.EmptyCodeNeverValidates | includes/Maintenance.php:97-107 | an empty stored code validates no cookie, so no request passes for a valid bypass |
| Maintenance.ClearBypassCookie | includes/Maintenance.php:302-314 | an expired empty cookie is sent exactly when the bypass cookie is present |
| Maintenance.ClearedCookieReplacesIssued | includes/Maintenance.php:302-314 | the clearing cookie has the name and path of the issued one, expires an hour before now and carries no code |
| Maintenance.ToggleMaintenance | includes/Maintenance.php:239-255 | the maintenance flag is flipped, nothing else changes, and the result is ok with the new flag and the unchanged bypass link |
| Maintenance.ResetBypass | includes/Maintenance.php:262-283 | a fresh 24-character alphanumeric bypass code replaces the old one and nothing else changes, and the result carries the code and its link; if `random_int` throws, nothing changes |
| Maintenance.CookieAfterReset | includes/Maintenance.php:97-107 | after a reset a cookie validates exactly when it carries the new code |
| Maintenance.GetMaintenanceStatus | includes/Maintenance.php:290-297 | the status reports the stored flag as stored, `false` when it is absent or null, and the bypass link of the stored code |
| Maintenance.FlagReadingsAgree | includes/Status.php:41-42 | the raw flag of the maintenance status and the `!empty` flag of the site status agree on truthiness |
| Status.BypassLink | includes/Status.php:145-154 | the bypass link is empty exactly when the code is empty |
| Status.BypassLinkCarriesCode | includes/Status.php:145-154 | for a non-empty code the link is the home URL followed by "/?bypass_code=" and the code as PHP's `.` prints it, a string code verbatim |
| Status.CoreUpdatesCount | includes/Status.php:74-89 | 1 when some core update offers "upgrade", else 0, and 0 when there is no update data |
| Status.UpdatesCount | includes/Status.php:96-109 | a plugin or theme count is the number of entries whenever the data is an array, and 0 exactly when the data is not a non-empty array |
| Status.MaybeCheckForUpdates | includes/Status.php:129-138 | the check runs and stores now exactly when more than 3600 s have passed since the last one (never checked counts as 0), else nothing changes |
| Status.RefreshThrottled | includes/Status.php:133 | a later time is due exactly when it is more than 3600 s after the last check: 3600 s is not due and 3601 s is |
| Status.SiteStatusOf | includes/Status.php:23-51 | the status reports each mode as `!empty` of its option, the bypass link of the stored code, the home URL, the site name, both versions, the three update counts and now |
| Status.GetBypassLink | includes/Status.php:145-154 | the link is empty exactly when the stored code is empty, and otherwise the home URL followed by "/?bypass_code=" and the code as PHP's `.` prints it |
| Status.GetBasicInfo | includes/Status.php:161-168 | ping reports ok, the site URL, the site name and the plugin version 1.0.0 |
| Status.BasicInfoAgreesWithStatus | includes/Status.php:161-168 | the ping's site URL and name are the home URL and site name that the status reports |
| Status.GetPluginInfo | includes/Status.php:195-217 | the counts are the numbers of installed and active plugins, and inactive is their difference |
| Debug.DefineOnceKeeps | mrwp-tools-plugin/includes/Debug.php:45-57 | `define` only fills an undefined constant: a defined one never changes, and defining again has no effect |
| Debug.RTrimSlash | mrwp-tools-plugin/includes/Debug.php:187 | the result is a prefix of the input not ending in "/", and everything dropped is "/" |
| Debug.DebugInfo | mrwp-tools-plugin/includes/Debug.php:133-145 | the report has exactly the nine keys in source order; `wp_debug`, `wp_debug_log` and `wp_debug_display` are each true only when their constant is defined true; the reporting level and the three ini values are the current ones; the log file reports whether it exists, and its size, or 0 when it is absent |
| Debug.LogDirectory | mrwp-tools-plugin/includes/Debug.php:152-155 | `dirname` of the debug log path is the content directory when that has no trailing slash, and never empty |
| Debug.Enabled | mrwp-tools-plugin/includes/Debug.php:43-77 | enabling defines each undefined constant (`WP_DEBUG` and `WP_DEBUG_LOG` true, `WP_DEBUG_DISPLAY` false), and only when `WP_DEBUG` ends true sets full reporting, log errors and the log file |
| Debug.EnableNotices | mrwp-tools-plugin/includes/Debug.php:47-61 | enabling records a notice exactly when `WP_DEBUG` was already false, one exactly when `WP_DEBUG_DISPLAY` was already true, and one exactly when the log directory is not writable |
| Debug.Disabled | mrwp-tools-plugin/includes/Debug.php:82-96 | with `WP_DEBUG` pinned true nothing changes; otherwise reporting goes to errors, warnings and parse errors, and log and display errors go off |
| Debug.DisableNotices | mrwp-tools-plugin/includes/Debug.php:84-87 | disabling records a notice exactly when `WP_DEBUG` is defined true |
| Debug.ApplyingTwice | mrwp-tools-plugin/includes/Debug.php:43-96 | enabling twice is enabling once, and so is disabling |
| Debug.PinnedConstantWins | mrwp-tools-plugin/includes/Debug.php:45-50 | a `WP_DEBUG` already defined, in wp-config.php or by WordPress's defaults, survives both modes with its notice |
| Debug.StockConstantsPinEnable | mrwp-tools-plugin/includes/Debug.php:43-77 | with WordPress's default constants (debug and log false, display true) the enable path changes no runtime setting and records both constant notices, and the configuration check recommends nothing |
| Debug.Stamps | mrwp-tools-plugin/includes/Debug.php:267-270 | each notice is stored with its message and the time |
| Debug.StampsSnoc | mrwp-tools-plugin/includes/Debug.php:267-270 | stamping one more notice adds one stamped entry at the end |
| Debug.AddDebugNotice | mrwp-tools-plugin/includes/Debug.php:264-278 | the notice is appended with the time and only the last 10 are kept |
| Debug.DefineConstants | mrwp-tools-plugin/includes/Debug.php:45-61 | the three constants are defined once each and the pinned-constant notices are appended in order |
| Debug.EnsureLogDirectory | mrwp-tools-plugin/includes/Debug.php:181-198 | a notice naming the directory is appended exactly when the log directory is not writable |
| Debug.EnableDebugMode | mrwp-tools-plugin/includes/Debug.php:43-77 | the runtime becomes `Enabled` of the old runtime and its notices are appended in order, keeping the last 10 |
| Debug.SetReporting | mrwp-tools-plugin/includes/Debug.php:66-76 | with WP_DEBUG true, full error reporting and error logging are switched on and the error log moves to debug.log when its directory is writable; otherwise the runtime is unchanged |
| Debug.DisableDebugMode | mrwp-tools-plugin/includes/Debug.php:82-96 | the runtime becomes `Disabled` of the old runtime and its notice, if any, is appended |
| Debug.InitDebugMode | mrwp-tools-plugin/includes/Debug.php:29-38 | the enable path runs exactly when `debug_enabled` is truthy, else the disable path |
| Debug.DebugInfoAfterToggle | mrwp-tools-plugin/includes/Debug.php:133-145 | the info reported after enabling shows `WP_DEBUG` and `WP_DEBUG_LOG` true, `WP_DEBUG_DISPLAY` false and full reporting, and after disabling shows the lowered reporting and logging off |
| Debug.ToggleDebug | mrwp-tools-plugin/includes/Debug.php:103-126 | `debug_enabled` is flipped, the runtime follows the new value, and the result is always ok with the new value and the debug info |
| Debug.CheckDebugConfiguration | mrwp-tools-plugin/includes/Debug.php:303-330 | improperly configured exactly when the log directory is not writable, with that one issue, and one recommendation according to how `WP_DEBUG` is defined |
| Email.Mailer.Send | mrwp-tools-plugin/includes/Email.php:68 | one mail is recorded and the result is whether it was accepted |
| Email.FromEmail | mrwp-tools-plugin/includes/Email.php:120-131 | the site name and a bracketed admin address when that is valid, else the default sender |
| Email.FromEmailIsBracketed | mrwp-tools-plugin/includes/Email.php:120-131 | the sender always ends in ">" |
| Email.BypassEmailError | mrwp-tools-plugin/includes/Email.php:24-50 | the first failing check, in order: no client email, an invalid one, no bypass link, and none when all pass |
| Email.BypassMail | mrwp-tools-plugin/includes/Email.php:52-65 | the bypass mail goes to the client email, carries the bypass link, and has the plain-text, From and Reply-To headers |
| Email.SendBypassEmail | mrwp-tools-plugin/includes/Email.php:22-86 | an early exit sends nothing and reports its error; otherwise exactly one mail is sent, and the result is ok with recipient and time when accepted, else "Failed to send email" |
| Email.BypassMailNeedsCode | mrwp-tools-plugin/includes/Email.php:45-50 | a bypass mail is only sent for a non-empty stored code, and it carries that code's link |
| Email.NotificationHeaders | mrwp-tools-plugin/includes/Email.php:148-154 | headers given are used as given, and none given means the plain-text and From headers |
| Email.SendNotification | mrwp-tools-plugin/includes/Email.php:142-157 | an invalid recipient sends nothing and fails; otherwise one mail, whose acceptance is the result |
| Email.DataTextConcat | mrwp-tools-plugin/includes/Email.php:203-205 | the data lines of two parts are the lines of each, in order |
| Email.JoinedConcat | mrwp-tools-plugin/includes/Email.php:203-205 | appending one line per item over a concatenation gives the lines of the first part followed by those of the second |
| Email.DataTextOfEntry | mrwp-tools-plugin/includes/Email.php:204 | one entry gives one "key: value\n" line |
| Email.DataLines | mrwp-tools-plugin/includes/Email.php:203-205 | the loop builds one line per data entry, in order |
| Email.SendSystemAlert | mrwp-tools-plugin/includes/Email.php:167-209 | without a valid client email nothing is sent and the result is false; otherwise one alert mail with the data lines, whose acceptance is the result |
| Email.TestRecipient | mrwp-tools-plugin/includes/Email.php:221 | the test address when truthy, else the client email, and empty only when both are |
| Email.TestEmailConfig | mrwp-tools-plugin/includes/Email.php:217-260 | no or an invalid recipient is refused without sending; otherwise one test mail, with success equal to acceptance and an error exactly when it failed |
| Email.LogEmailActivity | mrwp-tools-plugin/includes/Email.php:299-318 | the activity is appended with the time and only the last 50 are kept |
| Email.GetEmailLog | mrwp-tools-plugin/includes/Email.php:326-335 | the newest limit entries, newest first, none left out newer than one returned, ties in log order; a negative limit drops that many from the end |
| Rest.NamesDistinct | mrwp-tools-plugin/includes/Rest.php:170-175 | the four action names are distinct |
| Rest.SelectAction | mrwp-tools-plugin/includes/Rest.php:102-128 | the `switch` picks the first case whose label loosely equals the parameter, and none when no label does |
| Rest.SwitchAgreesWithWhitelist | mrwp-tools-plugin/includes/Rest.php:169-178 | a whitelisted parameter selects its own action, only whitelisted strings and `true` select any, and `true` selects the first case |
| Rest.ResultReply | mrwp-tools-plugin/includes/Rest.php:130-138 | 200 exactly for an ok result, 400 exactly for a failed one, and 500 exactly for an exception, with the result or the message as body |
| Rest.UnknownActionReply | mrwp-tools-plugin/includes/Rest.php:123-127 | an unknown action is answered with 400 and an error body "Unknown action: " followed by the parameter as PHP prints it |
| Rest.ValidateAction | mrwp-tools-plugin/includes/Rest.php:169-178 | the parameter is admitted exactly when it is the name of one of the four actions, as a string |
| Rest.EndpointOf | mrwp-tools-plugin/includes/Rest.php:25-53 | a request reaches the namespace index exactly for GET on /mrwp/v1, ping exactly for GET on /mrwp/v1/ping, status exactly for POST on /mrwp/v1/status and action exactly for POST on /mrwp/v1/action, the route compared case-insensitively and the method upper-cased |
| Rest.HandleIndex | mrwp-tools-plugin/includes/Rest.php:27-31 | the namespace index that WordPress creates with the first `mrwp/v1` route answers 200 with the namespace and exactly its four routes |
| Rest.IndexListsEveryRoute | mrwp-tools-plugin/includes/Rest.php:27-53 | every route a request can reach in the namespace is one of the four the index lists |
| Rest.RunAction | mrwp-tools-plugin/includes/Rest.php:102-121 | each action changes only its own state: one option key for the toggles and the reset, plus runtime and notices for debug, at most one mail for the e-mail, and only the reset can throw |
| Rest.HandleAction | mrwp-tools-plugin/includes/Rest.php:97-139 | an unknown parameter changes nothing and gets the unknown-action reply; a known one gets 200 when its result is ok and 400 when not, with the result as body, or 500 only for the reset; each toggle flips its flag, answers 200 and sends no email; the reset changes only the bypass code; the email changes no option and sends at most one message |
| Rest.HandleStatus | mrwp-tools-plugin/includes/Rest.php:74-89 | the site status with 200, or the exception message with 500 |
| Rest.HandlePing | mrwp-tools-plugin/includes/Rest.php:61-66 | ping always answers 200 with the basic info of `Status.GetBasicInfo` |
| Rest.CheckAuthentication | mrwp-tools-plugin/includes/Rest.php:147-159 | permission is granted exactly when the signed request is accepted, else refused with its error |
| Rest.AllowOrigin | mrwp-tools-plugin/includes/Rest.php:201-211 | no hub gives "*", a hub URL without a host gives no header, and otherwise it gives scheme "://" host |
| Rest.RestResponse.Header | mrwp-tools-plugin/includes/Rest.php:198 | setting a header replaces that one header |
| Rest.HandleCors | mrwp-tools-plugin/includes/Rest.php:188-214 | called directly (nothing hooks it): other routes are untouched; ours get Allow-Methods and Allow-Headers always, and Allow-Origin as `AllowOrigin` says |
| Rest.ResponseStatus | mrwp-tools-plugin/includes/Rest.php:298 | "unknown" when the data has no non-null `ok`, "success" when it is truthy, and "error" exactly when it is present and empty |
| Rest.LoggedStatusMatchesReply | mrwp-tools-plugin/includes/Rest.php:130 | an action logged "success" is exactly one answered 200, and "error" exactly one answered 400 |
| Rest.LogApiRequest | mrwp-tools-plugin/includes/Rest.php:290-313 | the request is appended with its status and the time, and only the last 100 are kept |
| Rest.GetApiLog | mrwp-tools-plugin/includes/Rest.php:345-354 | the newest limit entries, newest first, none left out newer than one returned, ties in log order; a negative limit drops that many from the end |
| Rest.Admit | mrwp-tools-plugin/includes/Rest.php:27-52 | a callback runs only after the filter passed, on a route of the namespace, with a whitelisted action, and with permission on the two signed routes; an action that is absent or null gets 400 `rest_missing_callback_param`, and one outside the whitelist 400 `rest_invalid_param`; every refusal is 400, 401 or 404 |
| Rest.AdmissionOutcomes | mrwp-tools-plugin/includes/Rest.php:45-51 | a bad action with a good signature gets 400, and a good action with a bad signature gets 401 |
| Rest.ServeRequest | mrwp-tools-plugin/includes/Rest.php:27-52 | nothing changes unless an accepted signed request reaches the action route; exempt ping answers with the basic info and the exempt namespace index with its route list; a request that matches none of the namespace's routes gets 401 or 404 |
| Settings.SanitizeSettings | admin/Settings.php:344-370 | the sanitiser starts from the stored options; `hub_url` is taken through `esc_url_raw` when set, `client_email` only when its sanitised form is a valid address (else one `invalid_email` message), and no other key is taken from the input |
| Settings.SanitizerIgnoresOtherKeys | admin/Settings.php:347-369 | an input without the two form fields stores exactly the current options |
| Settings.SettingsPage | admin/Settings.php:161-170 | users without `manage_options` are stopped, and the form is processed only for a submit with a valid nonce |
| Settings.SaveNoticeAsWritten | admin/Settings.php:317-333 | success is reported exactly when `update_option` reports a change |
| Settings.SaveNotice | admin/Settings.php:317-333 | success is reported exactly when the option holds what the form asked to store |
| Settings.HandleFormSubmission | admin/Settings.php:302-336 | without the capability nothing changes; otherwise the submitted fields are merged over the stored options (submitted wins), stored through the sanitiser, and reported with its messages |
| Settings.UnchangedSaveReportsError | admin/Settings.php:314-333 | saving the form unchanged stores exactly what was submitted but reports "Error saving settings." |
| Settings.SecretPreview | admin/Settings.php:228-234 | the preview is the first 8 characters of the secret followed by "...", at most 11 characters |
| Settings.PreviewHidesSecret | admin/Settings.php:234 | a provisioned 64-character secret is never shown whole |
| Settings.EnqueuesAdminStyles | admin/Settings.php:104-107 | the stylesheet is added only on the `settings_page_mrwp-tools-settings` screen |
| Plugin.Activated | mrwp-tools-plugin/mrwp-tools.php:142-169 | an empty secret or code is replaced, a non-empty one is kept, every stored key keeps its value, and the four defaults fill only missing keys |
| Plugin.ActivationProvisions | mrwp-tools-plugin/mrwp-tools.php:147-165 | after activation the secret and the bypass code are non-empty and both mode flags exist |
| Plugin.ActivationIdempotent | mrwp-tools-plugin/mrwp-tools.php:147-165 | activating again once provisioned changes nothing |
| Plugin.Activate | mrwp-tools-plugin/mrwp-tools.php:142-169 | a 64-character secret and a 24-character code are generated only where empty and the activated options are stored; if generation throws nothing is stored |
| Plugin.Deactivated | mrwp-tools-plugin/mrwp-tools.php:174-190 | after deactivation both mode flags read false, every key is kept, and options with both flags off are unchanged |
| Plugin.DeactivatedFromAdmin | mrwp-tools-plugin/mrwp-tools.php:174-190 | deactivating from an admin screen, with the sanitiser on every write, keeps every option other than `hub_url` and `client_email` exactly as it was, the two flags included |
| Plugin.DeactivationIdempotent | mrwp-tools-plugin/mrwp-tools.php:176-186 | deactivating twice is deactivating once |
| Plugin.DeactivationLiftsModes | mrwp-tools-plugin/mrwp-tools.php:176-186 | after deactivation the gate lets every request through and the site status reports both modes off |
| Plugin.Deactivate | mrwp-tools-plugin/mrwp-tools.php:174-190 | one write per flag that was on, nothing written when neither was, and the result is the deactivated options |
| Plugin.AdminDeactivationKeepsModes | mrwp-tools-plugin/mrwp-tools.php:176-186 | deactivating through the settings sanitiser leaves both flags reading as before |
| Plugin.AdminDeactivationCounterexample | mrwp-tools-plugin/mrwp-tools.php:176-186 | for a site in maintenance mode, deactivating from the admin keeps it on, while the intended deactivation turns it off |
| Plugin.Autoload | mrwp-tools-plugin/mrwp-tools.php:86-101 | names outside `MRWP\Agent\` are ignored, and a file is loaded only if it exists under "includes/" |
| Plugin.AutoloadOfClass | mrwp-tools-plugin/mrwp-tools.php:86-101 | `MRWP\Agent\` followed by a name loads "includes/" name ".php" when that file exists |
| Plugin.ToolsSlot.Instance | mrwp-tools-plugin/mrwp-tools.php:47-52 | the first call creates the plugin object and every later call returns that same object |

## Left out

- `generate_secret()` in the main plugin file (mrwp-tools-plugin/mrwp-tools.php:198-208) is the same loop as `generate_random_string()`. It is modelled once, as `Security.GenerateRandomString`, which `Plugin.Activate` calls.
- The HMAC-SHA256 function and the timing behaviour of `hash_equals` are out of scope: the first is a parameter and the second is string equality.
- A value picked by `random_int` is any value in range. Its quality as a cryptographic random source is not expressible.
- `intval` is modelled for decimal text (whitespace, a sign, digits, saturation to 64 bits). Other numeric forms are not modelled: exponents, hexadecimal and leading `.`.
- Maintenance.IsBypassValid: a stored bypass code that is not a string makes `hash_equals` throw a `TypeError`, which nothing catches. The model treats it as no match. Cookies are modelled as strings, so an array-valued `mrwp_bypass` cookie (sent as `mrwp_bypass[]=x`) cannot be expressed. In the source, `hash_equals` throws an uncaught `TypeError` for it (includes/Maintenance.php:104-106).
- Maintenance.CheckMaintenanceMode: its 503 outcome assumes a string-valued `mrwp_bypass` cookie. While maintenance is on and a code is stored, a request with an array-valued cookie ends in that uncaught `TypeError` at includes/Maintenance.php:55 instead of the 503 page.
- Maintenance.HandleBypassCode: the same `TypeError` from `hash_equals` (includes/Maintenance.php:72) for a non-string stored code is modelled as no effect: no cookie and no redirect, instead of a fatal error.
- Security.CalculateHmacSignature: an array site secret makes `hash_hmac` (includes/Security.php:118) throw a `TypeError`. The model signs it as the text "Array" instead of failing the request.
- The order of keys in stored PHP arrays is not modelled: options are a `map`. Reordering does not change what `update_option` sees as "changed" in the model, although it can in WordPress.
- WordPress serialises options and may read integers back as strings. The model keeps the PHP value as written.
- Debug.Runtime: `WP_DEBUG`, `WP_DEBUG_LOG` and `WP_DEBUG_DISPLAY` are booleans. Non-boolean definitions in wp-config.php are not modelled.
- HTML, CSS and e-mail texts (the maintenance page, the settings page, the mail templates) are out of scope, and so is translation: `__()` is the identity. Mail bodies are kept as their parameters (`Email.Body`).
- File and `ini` I/O is out of scope: `mkdir`, `file_exists`, `filesize`, reading and clearing the debug log (`get_debug_log_content`, `clear_debug_log`), and `ini_get` beyond the modelled settings. Directory writability and the log size are inputs.
- `get_client_ip()` depends on `filter_var` IP rules, so the client address is a parameter of `Rest.LogApiRequest`.
- The WordPress update-check network calls (`wp_version_check` and the like) are not modelled. `Status.MaybeCheckForUpdates` records only that a refresh took place.
- Concurrency is out of scope: two simultaneous toggles can lose an update in the source, and each request here is sequential.
- One `now` stands for every `time()` call in a request.
- `get_email_status`, `get_environment_info`, `get_theme_info`, `get_api_documentation`, `get_debug_notices` and `clear_debug_notices` are plain reads or deletes of host data and options with no logic of their own, so they are not modelled.
- Hook registration, `exit`, `wp_die`, headers already sent and redirects are not executed: they are recorded as outcomes (`Maintenance.Gate`, `Maintenance.BypassOutcome`, `Settings.FormOutcome`).
- HEAD requests routed to GET endpoints are not modelled. Nor is the `'type' => 'string'` schema of the `action` parameter: with a `validate_callback` given, WordPress validates through it alone, so only the four action names are admitted.
- Rest.EndpointOf: routes outside the `mrwp/v1` namespace (WordPress core's and other plugins') are not modelled and stand as `NoEndpoint`, so `Rest.ServeRequest`'s "401 or 404" clause speaks only of requests that match no route at all. The namespace index's body lists only the route paths, not the methods and argument schemas WordPress adds.
- Operations that nothing in the source calls or hooks are modelled as the operations they define, on their own: `log_api_request()`, `log_email_activity()`, `get_api_log()`, `get_email_log()`, `send_system_alert()`, `test_email_config()`, `get_plugin_info()`, `check_debug_configuration()`, `get_maintenance_status()`, `clear_bypass_cookie()`, `generate_hmac_headers()` and `handle_cors()`.
- `current_user_can()`, `validate_email()` and `validate_url()` (includes/Security.php:211-233) are not modelled. Nothing in the source calls them, and each only forwards to a WordPress function (`current_user_can`, `sanitize_email`, `esc_url_raw`) that is not part of this model.
- Rest.RestRequest: `params` is the merged `get_params()` view, one value per name. `WP_REST_Request::get_param()` looks through the JSON body, the POST fields and the query string in turn and skips a null value, so a JSON `"action": null` with `?action=toggle_debug` in the URL runs `toggle_debug` in WordPress; that fall-through past a null value is not modelled, and the model refuses such a request as missing its action.
- Rest.HandleCors: no `add_filter` or `add_action` registers `handle_cors()`, so no served response carries the CORS headers and the `hub_url` origin restriction never takes effect. `Rest.ServeRequest` accordingly applies no CORS headers.
- Debug.Runtime: WordPress's `wp_initial_constants()` defines `WP_DEBUG`, `WP_DEBUG_LOG` and `WP_DEBUG_DISPLAY` before plugins load, so the undefined case of each constant does not arise in a running site; the model keeps it for the source's `!defined()` branches. `Debug.StockConstantsPinEnable` states what the enable path does under WordPress's defaults.
- Rest.HandleAction: its unknown-action branch cannot be reached through the route, because `validate_action` admits only the four names (`Rest.Admit`, `Rest.SwitchAgreesWithWhitelist`). It is modelled for a direct call.
- Email.Mailer: whether `wp_mail` succeeds is a fixed function of the mail.
- Settings.HandleFormSubmission: its save message is the corrected one (see Findings). `Settings.SaveNoticeAsWritten` is the source's choice.
- Plugin.Deactivate: models the writes with no sanitiser registered for the option, e.g. from WP-CLI. The admin-screen case is `Plugin.DeactivatedFromAdmin` (see Findings).

## Findings

| source | as written | input that shows it | evidently intended | confidence | as-written member | corrected member |
|---|---|---|---|---|---|---|
| admin/Settings.php:314-333 | the save message follows the return value of `update_option`, which is false when the stored value does not change | submitting the settings form without editing it, with a stored hub URL and client e-mail already in sanitised form | "Settings saved successfully." whenever the option holds what was submitted | high, not executed | Settings.UnchangedSaveReportsError (over Settings.SaveNoticeAsWritten) | Settings.SaveNotice, used by Settings.HandleFormSubmission |
| mrwp-tools-plugin/mrwp-tools.php:176-186 | on an admin screen, `register_setting` (admin/Settings.php:45-53) has put `sanitize_settings` on every write of 'mrwp_agent'; it rebuilds the value from the stored options and takes only `hub_url` and `client_email` from it, so both flag writes are discarded | options `{maintenance_enabled: true}`, plugin deactivated from the plugins screen | both flags read false after deactivation | medium (depends on WordPress firing `admin_init` before the deactivation hook), not executed | Plugin.AdminDeactivationCounterexample (over Plugin.DeactivatedFromAdmin) | Plugin.Deactivated, with Plugin.DeactivationLiftsModes |
