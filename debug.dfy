/**
 * Debug mode: the persisted 'debug_enabled' flag, and the PHP runtime state
 * it is applied to, namely the define-once constants WP_DEBUG, WP_DEBUG_LOG
 * and WP_DEBUG_DISPLAY and the error-reporting settings, plus the bounded
 * list of notices recorded when the constants cannot be set as wanted.
 */
module Debug {
  import opened Php
  import opened Logs
  import Wp
  import AgentCore

  /** `E_ALL` in PHP 8. */
  const EAll: int := 32767

  /** `E_ERROR | E_WARNING | E_PARSE`. */
  const QuietReporting: int := 7

  /** The notice list keeps the 10 most recent notices. */
  const NoticeLimit: nat := 10

  // The notice texts; each is written in two pieces so that the verifier can
  // look at their first characters.
  const PinnedOffNotice: string := "WP_DEBUG is already " + "defined as false in wp-config.php"
  const DisplayOnNotice: string := "WP_DEBUG_DISPLAY should " + "be disabled for security reasons"
  const PinnedOnNotice: string := "WP_DEBUG is defined as true " + "in wp-config.php and cannot be disabled"
  const UnwritableNotice: string := "Debug log directory " + "is not writable: "

  /**
   * The debug-related state of one PHP process: each constant is None until
   * it is defined and can never change afterwards; the ini settings are the
   * strings `ini_get` returns. WordPress's `wp_initial_constants()` defines
   * all three constants before any plugin loads, so in a running site the
   * plugin meets them defined (see `StockConstantsPinEnable`); the None
   * case is the plugin code's own `!defined()` branch, kept for a process
   * where they are not.
   */
  datatype RuntimeState = RuntimeState(
    wpDebug: Option<bool>,
    wpDebugLog: Option<bool>,
    wpDebugDisplay: Option<bool>,
    errorReporting: int,
    logErrors: string,
    displayErrors: string,
    errorLog: string)

  /**
   * The file system as the debug component sees it: the content directory,
   * which directories are writable (after `wp_mkdir_p` has had its go), and
   * the size of debug.log when it exists.
   */
  datatype DebugFiles = DebugFiles(contentDir: string, writable: string -> bool, logSize: Option<int>)

  /** `define($name, $v)` guarded by `!defined($name)`. */
  function DefineOnce(c: Option<bool>, v: bool): Option<bool> {
    if c.None? then Some(v) else c
  }

  /** A defined constant keeps its value; defining twice is defining once. */
  lemma DefineOnceKeeps(c: Option<bool>, v: bool, w: bool)
    ensures DefineOnce(c, v).Some?
    ensures c.Some? ==> DefineOnce(c, v) == c
    ensures DefineOnce(DefineOnce(c, v), w) == DefineOnce(c, v)
  {
  }

  /** `WP_CONTENT_DIR . '/debug.log'`. */
  function DebugLogPath(contentDir: string): string {
    contentDir + "/debug.log"
  }

  function RTrimSlash(s: string): (r: string)
    ensures |r| <= |s| && r == s[..|r|]
    ensures r == [] || r[|r| - 1] != '/'
    ensures forall i :: |r| <= i < |s| ==> s[i] == '/'
  {
    if s != [] && s[|s| - 1] == '/' then RTrimSlash(s[..|s| - 1]) else s
  }

  /** `dirname()` of the debug log path: the content directory without trailing slashes, or "/". */
  function LogDirectory(contentDir: string): (r: string)
    ensures r != []
    ensures contentDir != [] && contentDir[|contentDir| - 1] != '/' ==> r == contentDir
  {
    var d := RTrimSlash(contentDir);
    if d == [] then "/" else d
  }

  predicate LogDirWritable(files: DebugFiles) {
    files.writable(LogDirectory(files.contentDir))
  }

  /**
   * The runtime state after `enable_debug_mode()`: each constant defined if
   * it was not, and, when WP_DEBUG ends up true, full error reporting, error
   * logging on, and the error log moved to debug.log if its directory is
   * writable. Display of errors is left as it was.
   */
  function Enabled(s: RuntimeState, files: DebugFiles): (r: RuntimeState)
    ensures r.wpDebug == DefineOnce(s.wpDebug, true)
    ensures r.wpDebugLog == DefineOnce(s.wpDebugLog, true)
    ensures r.wpDebugDisplay == DefineOnce(s.wpDebugDisplay, false)
    ensures r.wpDebug == Some(true) <==> s.wpDebug != Some(false)
    ensures r.wpDebug == Some(true) ==> (r.errorReporting == EAll && r.logErrors == "1"
      && r.errorLog == (if LogDirWritable(files) then DebugLogPath(files.contentDir) else s.errorLog))
    ensures r.wpDebug != Some(true) ==> r.errorReporting == s.errorReporting && r.logErrors == s.logErrors && r.errorLog == s.errorLog
    ensures r.displayErrors == s.displayErrors
  {
    var defined := s.(wpDebug := DefineOnce(s.wpDebug, true),
                      wpDebugLog := DefineOnce(s.wpDebugLog, true),
                      wpDebugDisplay := DefineOnce(s.wpDebugDisplay, false));
    assert defined.wpDebug == Some(true) <==> s.wpDebug != Some(false) by {
      if s.wpDebug.Some? {
        if s.wpDebug.value { assert s.wpDebug == Some(true); } else { assert s.wpDebug == Some(false); }
      }
    }
    if defined.wpDebug == Some(true) then
      defined.(errorReporting := EAll, logErrors := "1",
               errorLog := if LogDirWritable(files) then DebugLogPath(files.contentDir) else s.errorLog)
    else defined
  }

  /** The notices of the constant definitions in `enable_debug_mode()`, in order. */
  function ConstantNotices(s: RuntimeState): seq<string> {
    (if s.wpDebug == Some(false) then [PinnedOffNotice] else [])
    + (if s.wpDebugDisplay == Some(true) then [DisplayOnNotice] else [])
  }

  /** The notice of `ensure_log_directory()`. */
  function DirectoryNotices(files: DebugFiles): seq<string> {
    if LogDirWritable(files) then [] else [UnwritableNotice + LogDirectory(files.contentDir)]
  }

  /** The notices `enable_debug_mode()` records: one per constant pinned the wrong way and one for an unwritable log directory. */
  function EnableNotices(s: RuntimeState, files: DebugFiles): (r: seq<string>)
    ensures PinnedOffNotice in r <==> s.wpDebug == Some(false)
    ensures DisplayOnNotice in r <==> s.wpDebugDisplay == Some(true)
    ensures UnwritableNotice + LogDirectory(files.contentDir) in r <==> !LogDirWritable(files)
    ensures |r| <= 3
  {
    var unwritable := UnwritableNotice + LogDirectory(files.contentDir);
    assert unwritable != PinnedOffNotice && unwritable != DisplayOnNotice by {
      assert unwritable[0] == 'D' && PinnedOffNotice[0] == 'W' && DisplayOnNotice[0] == 'W';
    }
    ConstantNotices(s) + DirectoryNotices(files)
  }

  /**
   * The runtime state after `disable_debug_mode()`: nothing changes while
   * WP_DEBUG is pinned true; otherwise reporting is lowered and logging and
   * display are switched off, and the constants stay as they are.
   */
  function Disabled(s: RuntimeState): (r: RuntimeState)
    ensures s.wpDebug == Some(true) ==> r == s
    ensures s.wpDebug != Some(true) ==> r == s.(errorReporting := QuietReporting, logErrors := "0", displayErrors := "0")
  {
    if s.wpDebug == Some(true) then s
    else s.(errorReporting := QuietReporting, logErrors := "0", displayErrors := "0")
  }

  /** The single notice of `disable_debug_mode()`, when WP_DEBUG is pinned true. */
  function DisableNotices(s: RuntimeState): (r: seq<string>)
    ensures r == [] <==> s.wpDebug != Some(true)
  {
    if s.wpDebug == Some(true) then [PinnedOnNotice] else []
  }

  /** Enabling twice or disabling twice leaves the runtime as enabling or disabling once does. */
  lemma ApplyingTwice(s: RuntimeState, files: DebugFiles)
    ensures Enabled(Enabled(s, files), files) == Enabled(s, files)
    ensures Disabled(Disabled(s)) == Disabled(s)
  {
  }

  /**
   * A process in which WP_DEBUG is already defined, by wp-config.php or by
   * WordPress's own defaults, is not switched by either path:
   * pinned true, disabling changes nothing; pinned false, enabling turns on
   * neither reporting nor logging.
   */
  lemma PinnedConstantWins(s: RuntimeState, files: DebugFiles)
    ensures s.wpDebug == Some(true) ==> Disabled(s) == s && DisableNotices(s) == [PinnedOnNotice]
    ensures s.wpDebug == Some(false) ==> (Enabled(s, files).wpDebug == Some(false)
      && Enabled(s, files).errorReporting == s.errorReporting && Enabled(s, files).logErrors == s.logErrors)
  {
  }

  /**
   * With the constants as `wp_initial_constants()` defines them when
   * wp-config.php does not (WP_DEBUG and WP_DEBUG_LOG false,
   * WP_DEBUG_DISPLAY true), the enable path changes no runtime setting and
   * records both constant notices, and the configuration check makes no
   * recommendation.
   */
  lemma StockConstantsPinEnable(s: RuntimeState, files: DebugFiles)
    requires s.wpDebug == Some(false) && s.wpDebugLog == Some(false) && s.wpDebugDisplay == Some(true)
    ensures Enabled(s, files) == s
    ensures ConstantNotices(s) == [PinnedOffNotice, DisplayOnNotice]
    ensures CheckDebugConfiguration(s, files).recommendations == []
  {
  }

  /** Each message stamped with the time it was recorded. */
  function Stamps(now: int, messages: seq<string>): (r: seq<Stamped<string>>)
    ensures |r| == |messages|
    ensures forall i :: 0 <= i < |r| ==> r[i] == Stamped(now, messages[i])
  {
    seq(|messages|, i requires 0 <= i < |messages| => Stamped(now, messages[i]))
  }

  lemma StampsSnoc(now: int, messages: seq<string>, m: string)
    ensures Stamps(now, messages + [m]) == Stamps(now, messages) + [Stamped(now, m)]
  {
  }

  /** The PHP process the agent runs in. */
  class Runtime {
    var wpDebug: Option<bool>
    var wpDebugLog: Option<bool>
    var wpDebugDisplay: Option<bool>
    var errorReporting: int
    var logErrors: string
    var displayErrors: string
    var errorLog: string

    constructor (initial: RuntimeState)
      ensures State() == initial
    {
      wpDebug := initial.wpDebug;
      wpDebugLog := initial.wpDebugLog;
      wpDebugDisplay := initial.wpDebugDisplay;
      errorReporting := initial.errorReporting;
      logErrors := initial.logErrors;
      displayErrors := initial.displayErrors;
      errorLog := initial.errorLog;
    }

    function State(): RuntimeState
      reads this
    {
      RuntimeState(wpDebug, wpDebugLog, wpDebugDisplay, errorReporting, logErrors, displayErrors, errorLog)
    }
  }

  /** `add_debug_notice()`: append {message, time()} to 'mrwp_debug_notices' and keep the last 10. */
  method AddDebugNotice(store: Wp.Options, message: string, now: int)
    modifies store`debugNotices
    ensures store.debugNotices == Append(old(store.debugNotices), Stamped(now, message), NoticeLimit)
  {
    var notices := store.debugNotices;
    notices := notices + [Stamped(now, message)];
    if |notices| > NoticeLimit {
      notices := notices[|notices| - NoticeLimit..];
    }
    store.debugNotices := notices;
  }

  /** The `define()` calls of `enable_debug_mode()` with their notices. */
  method DefineConstants(rt: Runtime, store: Wp.Options, now: int)
    modifies rt`wpDebug, rt`wpDebugLog, rt`wpDebugDisplay, store`debugNotices
    ensures rt.wpDebug == DefineOnce(old(rt.wpDebug), true)
    ensures rt.wpDebugLog == DefineOnce(old(rt.wpDebugLog), true)
    ensures rt.wpDebugDisplay == DefineOnce(old(rt.wpDebugDisplay), false)
    ensures store.debugNotices == AppendAll(old(store.debugNotices), Stamps(now, ConstantNotices(old(rt.State()))), NoticeLimit)
  {
    ghost var s := rt.State();
    ghost var log := store.debugNotices;
    ghost var written: seq<string> := [];
    if rt.wpDebug.None? {
      rt.wpDebug := Some(true);
    } else if !rt.wpDebug.value {
      AddDebugNotice(store, PinnedOffNotice, now);
      written := [PinnedOffNotice];
      assert Stamps(now, written)[..0] == [];
    }
    assert store.debugNotices == AppendAll(log, Stamps(now, written), NoticeLimit);
    if rt.wpDebugLog.None? {
      rt.wpDebugLog := Some(true);
    }
    if rt.wpDebugDisplay.None? {
      rt.wpDebugDisplay := Some(false);
    } else if rt.wpDebugDisplay.value {
      AddDebugNotice(store, DisplayOnNotice, now);
      StampsSnoc(now, written, DisplayOnNotice);
      assert Stamps(now, written + [DisplayOnNotice])[..|written|] == Stamps(now, written);
      written := written + [DisplayOnNotice];
    }
    assert written == ConstantNotices(s);
  }

  /** `ensure_log_directory()`, once `wp_mkdir_p` has created what it could. */
  method EnsureLogDirectory(store: Wp.Options, files: DebugFiles, now: int)
    modifies store`debugNotices
    ensures store.debugNotices == AppendAll(old(store.debugNotices), Stamps(now, DirectoryNotices(files)), NoticeLimit)
  {
    var logDir := LogDirectory(files.contentDir);
    if !files.writable(logDir) {
      AddDebugNotice(store, UnwritableNotice + logDir, now);
      assert Stamps(now, [UnwritableNotice + logDir])[..0] == [];
    }
  }

  /** `enable_debug_mode()`. */
  method EnableDebugMode(rt: Runtime, store: Wp.Options, files: DebugFiles, now: int)
    modifies rt, store`debugNotices
    ensures rt.State() == Enabled(old(rt.State()), files)
    ensures store.debugNotices == AppendAll(old(store.debugNotices), Stamps(now, EnableNotices(old(rt.State()), files)), NoticeLimit)
  {
    ghost var s := rt.State();
    ghost var log := store.debugNotices;
    DefineConstants(rt, store, now);
    assert rt.State() == s.(wpDebug := DefineOnce(s.wpDebug, true),
                            wpDebugLog := DefineOnce(s.wpDebugLog, true),
                            wpDebugDisplay := DefineOnce(s.wpDebugDisplay, false));
    EnsureLogDirectory(store, files, now);
    AppendAllConcat(log, Stamps(now, ConstantNotices(s)), Stamps(now, DirectoryNotices(files)), NoticeLimit);
    assert Stamps(now, ConstantNotices(s)) + Stamps(now, DirectoryNotices(files)) == Stamps(now, EnableNotices(s, files));
    SetReporting(rt, files);
    assert rt.State() == Enabled(s, files);
  }

  /** The error-reporting part of `enable_debug_mode()`, which applies only when WP_DEBUG is true. */
  method SetReporting(rt: Runtime, files: DebugFiles)
    modifies rt`errorReporting, rt`logErrors, rt`errorLog
    ensures rt.State() == if rt.wpDebug == Some(true) then
        old(rt.State()).(errorReporting := EAll, logErrors := "1",
          errorLog := if LogDirWritable(files) then DebugLogPath(files.contentDir) else old(rt.errorLog))
      else old(rt.State())
  {
    if rt.wpDebug == Some(true) {
      rt.errorReporting := EAll;
      rt.logErrors := "1";
      var logFile := DebugLogPath(files.contentDir);
      if files.writable(LogDirectory(files.contentDir)) {
        rt.errorLog := logFile;
      }
    }
  }

  /** `disable_debug_mode()`. */
  method DisableDebugMode(rt: Runtime, store: Wp.Options, now: int)
    modifies rt, store`debugNotices
    ensures rt.State() == Disabled(old(rt.State()))
    ensures store.debugNotices == AppendAll(old(store.debugNotices), Stamps(now, DisableNotices(old(rt.State()))), NoticeLimit)
  {
    ghost var log := store.debugNotices;
    if rt.wpDebug == Some(true) {
      AddDebugNotice(store, PinnedOnNotice, now);
      assert Stamps(now, [PinnedOnNotice])[..0] == [];
      return;
    }
    rt.errorReporting := QuietReporting;
    rt.logErrors := "0";
    rt.displayErrors := "0";
  }

  /** `init_debug_mode()`: the enable path exactly when 'debug_enabled' is truthy. */
  method InitDebugMode(agent: AgentCore.Agent, rt: Runtime, files: DebugFiles, now: int)
    modifies rt, agent.options`debugNotices
    ensures Truthy(agent.GetOption("debug_enabled", Bool(false))) ==> (rt.State() == Enabled(old(rt.State()), files)
      && agent.options.debugNotices == AppendAll(old(agent.options.debugNotices), Stamps(now, EnableNotices(old(rt.State()), files)), NoticeLimit))
    ensures Empty(agent.GetOption("debug_enabled", Bool(false))) ==> (rt.State() == Disabled(old(rt.State()))
      && agent.options.debugNotices == AppendAll(old(agent.options.debugNotices), Stamps(now, DisableNotices(old(rt.State()))), NoticeLimit))
  {
    var debugEnabled := agent.GetOption("debug_enabled", Bool(false));
    if Truthy(debugEnabled) {
      EnableDebugMode(rt, agent.options, files, now);
    } else {
      DisableDebugMode(rt, agent.options, now);
    }
  }

  /** `get_debug_info()`: the constants (false when undefined), the ini settings and the log file. */
  function DebugInfo(s: RuntimeState, files: DebugFiles): (info: Value)
    ensures info.Arr? && |info.entries| == 9
    ensures [info.entries[0].0, info.entries[1].0, info.entries[2].0, info.entries[3].0, info.entries[4].0,
             info.entries[5].0, info.entries[6].0, info.entries[7].0, info.entries[8].0]
         == ["wp_debug", "wp_debug_log", "wp_debug_display", "error_reporting", "log_errors",
             "display_errors", "error_log_path", "debug_log_exists", "debug_log_size"]
    ensures info.entries[0].1 == Bool(s.wpDebug == Some(true))
    ensures info.entries[1].1 == Bool(s.wpDebugLog == Some(true))
    ensures info.entries[2].1 == Bool(s.wpDebugDisplay == Some(true))
    ensures info.entries[3].1 == Int(s.errorReporting)
    ensures info.entries[4].1 == Str(s.logErrors) && info.entries[5].1 == Str(s.displayErrors)
    ensures info.entries[6].1 == Str(s.errorLog)
    ensures info.entries[7].1 == Bool(files.logSize.Some?)
    ensures files.logSize.None? ==> info.entries[8].1 == Int(0)
    ensures files.logSize.Some? ==> info.entries[8].1 == Int(files.logSize.value)
  {
    Arr([
      ("wp_debug", Bool(s.wpDebug == Some(true))),
      ("wp_debug_log", Bool(s.wpDebugLog == Some(true))),
      ("wp_debug_display", Bool(s.wpDebugDisplay == Some(true))),
      ("error_reporting", Int(s.errorReporting)),
      ("log_errors", Str(s.logErrors)),
      ("display_errors", Str(s.displayErrors)),
      ("error_log_path", Str(s.errorLog)),
      ("debug_log_exists", Bool(files.logSize.Some?)),
      ("debug_log_size", Int(if files.logSize.Some? then files.logSize.value else 0))])
  }

  /**
   * After the enable path in a process where WP_DEBUG is undefined or
   * true, the debug info reports WP_DEBUG on, full error
   * reporting and error logging; after the disable path in a process that
   * does not pin WP_DEBUG, it reports the quiet settings.
   */
  lemma DebugInfoAfterToggle(s: RuntimeState, files: DebugFiles)
    ensures s.wpDebug != Some(false) ==> (DebugInfo(Enabled(s, files), files).entries[..5]
      == [("wp_debug", Bool(true)), ("wp_debug_log", Bool(DefineOnce(s.wpDebugLog, true) == Some(true))),
          ("wp_debug_display", Bool(s.wpDebugDisplay == Some(true))), ("error_reporting", Int(EAll)), ("log_errors", Str("1"))])
    ensures s.wpDebug != Some(true) ==> (DebugInfo(Disabled(s), files).entries[3..6]
      == [("error_reporting", Int(QuietReporting)), ("log_errors", Str("0")), ("display_errors", Str("0"))])
  {
  }

  /**
   * `toggle_debug()`: store the negation of 'debug_enabled', apply the new
   * state to the runtime, and report success, whatever the constants allowed.
   */
  method ToggleDebug(agent: AgentCore.Agent, rt: Runtime, files: DebugFiles, now: int) returns (r: AgentCore.ActionResult)
    modifies agent.options`agent, agent.options`debugNotices, rt
    ensures agent.GetOptions() == AgentCore.Flipped(old(agent.GetOptions()), "debug_enabled")
    ensures var on := agent.GetOptions()["debug_enabled"] == Bool(true);
      rt.State() == (if on then Enabled(old(rt.State()), files) else Disabled(old(rt.State())))
      && agent.options.debugNotices == AppendAll(old(agent.options.debugNotices),
           Stamps(now, if on then EnableNotices(old(rt.State()), files) else DisableNotices(old(rt.State()))), NoticeLimit)
    ensures r.Ok() && r == AgentCore.Done("toggle_debug", [
      ("debug_enabled", agent.GetOptions()["debug_enabled"]),
      ("debug_info", DebugInfo(rt.State(), files))])
  {
    var current := agent.GetOption("debug_enabled", Bool(false));
    var newState := !Truthy(current);
    var _ := agent.SetOption("debug_enabled", Bool(newState));
    if newState {
      EnableDebugMode(rt, agent.options, files, now);
    } else {
      DisableDebugMode(rt, agent.options, now);
    }
    r := AgentCore.Done("toggle_debug", [("debug_enabled", Bool(newState)), ("debug_info", DebugInfo(rt.State(), files))]);
  }

  /** `check_debug_configuration()`. */
  datatype DebugConfig = DebugConfig(properlyConfigured: bool, issues: seq<string>, recommendations: seq<string>)

  function CheckDebugConfiguration(s: RuntimeState, files: DebugFiles): (r: DebugConfig)
    ensures !r.properlyConfigured <==> !LogDirWritable(files)
    ensures r.issues == if LogDirWritable(files) then [] else ["Log directory is not writable: " + LogDirectory(files.contentDir)]
    ensures s.wpDebug == Some(true) ==> r.recommendations == ["WP_DEBUG is enabled in wp-config.php"]
    ensures s.wpDebug == Some(false) ==> r.recommendations == []
    ensures s.wpDebug.None? ==> r.recommendations == ["WP_DEBUG is not defined in wp-config.php, using runtime setting"]
  {
    var recommendations :=
      if s.wpDebug.Some? then (if s.wpDebug.value then ["WP_DEBUG is enabled in wp-config.php"] else [])
      else ["WP_DEBUG is not defined in wp-config.php, using runtime setting"];
    if LogDirWritable(files) then DebugConfig(true, [], recommendations)
    else DebugConfig(false, ["Log directory is not writable: " + LogDirectory(files.contentDir)], recommendations)
  }
}
