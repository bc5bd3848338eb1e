/**
 * Outgoing mail: the bypass-link mail to the client with its ordered
 * preconditions, generic notifications, system alerts, the configuration
 * test mail, the From address, and the bounded email activity log.
 */
module Email {
  import opened Php
  import opened Logs
  import Wp
  import AgentCore
  import Status

  /** The email activity log keeps the 50 most recent entries. */
  const EmailLogLimit: nat := 50

  const DefaultFrom: string := "Mr.WordPress Tools <noreply@mrwordpress.com>"
  const PlainText: string := "Content-Type: text/plain; charset=UTF-8"
  const ReplyTo: string := "Reply-To: support@mrwordpress.com"

  const NoClientEmail: string := "Client email not configured"
  const InvalidClientEmail: string := "Invalid client email address"
  const NoBypassLink: string := "Bypass link not available"
  const SendFailed: string := "Failed to send email"

  /**
   * The body of a mail: which template it was filled from and with what
   * (`localTime` is `current_time('Y-m-d H:i:s')`); the template texts
   * themselves are not modelled.
   */
  datatype Body =
    | BypassNotice(siteName: string, bypassLink: string, localTime: string)
    | AlertNotice(siteName: string, alertType: string, message: string, localTime: string, home: string, additional: string)
    | TestNotice(siteName: string, localTime: string)
    | Plain(text: string)

  /** One `wp_mail($to, $subject, $message, $headers)` call. */
  datatype Mail = Mail(to: string, subject: string, body: Body, headers: seq<string>)

  /**
   * `wp_mail`: every call is recorded in `sent`; whether the mail was handed
   * on is a fixed function of the mail.
   */
  class Mailer {
    var sent: seq<Mail>
    const accepts: Mail -> bool

    constructor (accepts: Mail -> bool)
      ensures sent == [] && this.accepts == accepts
    {
      sent := [];
      this.accepts := accepts;
    }

    method Send(m: Mail) returns (ok: bool)
      modifies this`sent
      ensures sent == old(sent) + [m]
      ensures ok == accepts(m)
    {
      sent := sent + [m];
      ok := accepts(m);
    }
  }

  /** `get_from_email()`: "<site name> <<admin email>>" for a valid admin email, else the plugin's no-reply address. */
  function FromEmail(site: Wp.Site): (r: string)
    ensures Truthy(site.adminEmail) && site.isEmail(ToPhpString(site.adminEmail))
      ==> r == site.name + " <" + ToPhpString(site.adminEmail) + ">"
    ensures !(Truthy(site.adminEmail) && site.isEmail(ToPhpString(site.adminEmail))) ==> r == DefaultFrom
  {
    if Truthy(site.adminEmail) && site.isEmail(ToPhpString(site.adminEmail)) then
      site.name + " <" + ToPhpString(site.adminEmail) + ">"
    else DefaultFrom
  }

  /** Whatever the admin email, the From value ends in an address in angle brackets. */
  lemma FromEmailIsBracketed(site: Wp.Site)
    ensures var r := FromEmail(site); |r| >= 2 && r[|r| - 1] == '>'
  {
    var r := FromEmail(site);
    if r == DefaultFrom {
      assert DefaultFrom == "Mr.WordPress Tools <noreply@" + "mrwordpress.com>";
    }
  }

  /**
   * The preconditions of `send_bypass_email()`, in the order they are
   * tested: a configured client email, a valid one, and a bypass link.
   */
  function BypassEmailError(clientEmail: Value, isEmail: string -> bool, bypassLink: string): (r: Option<string>)
    ensures r == Some(NoClientEmail) <==> Empty(clientEmail)
    ensures r == Some(InvalidClientEmail) <==> Truthy(clientEmail) && !isEmail(ToPhpString(clientEmail))
    ensures r == Some(NoBypassLink) <==> Truthy(clientEmail) && isEmail(ToPhpString(clientEmail)) && Empty(Str(bypassLink))
    ensures r == None <==> Truthy(clientEmail) && isEmail(ToPhpString(clientEmail)) && Truthy(Str(bypassLink))
  {
    if Empty(clientEmail) then Some(NoClientEmail)
    else if !isEmail(ToPhpString(clientEmail)) then Some(InvalidClientEmail)
    else if Empty(Str(bypassLink)) then Some(NoBypassLink)
    else None
  }

  /** `[Mr.WordPress] Maintenance activée – <site name>`. */
  function BypassSubject(siteName: string): string {
    "[Mr.WordPress] Maintenance activ\U{E9}e \U{2013} " + siteName
  }

  /** The mail `send_bypass_email()` sends once its preconditions hold. */
  function BypassMail(site: Wp.Site, clientEmail: Value, bypassLink: string, localTime: string): (m: Mail)
    ensures m.to == ToPhpString(clientEmail) && m.body.BypassNotice? && m.body.bypassLink == bypassLink
    ensures m.headers == [PlainText, "From: " + FromEmail(site), ReplyTo]
  {
    Mail(ToPhpString(clientEmail), BypassSubject(site.name), BypassNotice(site.name, bypassLink, localTime),
      [PlainText, "From: " + FromEmail(site), ReplyTo])
  }

  /**
   * `send_bypass_email()`: an early exit sends nothing and reports its error;
   * otherwise exactly one mail goes out, and the result is the recipient and
   * the time on success, "Failed to send email" otherwise.
   */
  method SendBypassEmail(agent: AgentCore.Agent, site: Wp.Site, mailer: Mailer, now: int, localTime: string)
    returns (r: AgentCore.ActionResult)
    modifies mailer`sent
    ensures var email := agent.GetOption("client_email", Str(""));
      var link := Status.GetBypassLink(agent, site.home);
      var err := BypassEmailError(email, site.isEmail, link);
      var m := BypassMail(site, email, link, localTime);
      (err.Some? ==> mailer.sent == old(mailer.sent) && r == AgentCore.Failed(err.value))
      && (err.None? ==> (mailer.sent == old(mailer.sent) + [m]
            && r == if mailer.accepts(m) then AgentCore.Done("send_bypass_email",
                   [("email_sent", Bool(true)), ("recipient", email), ("sent_at", Int(now))])
                 else AgentCore.Failed(SendFailed)))
  {
    var clientEmail := agent.GetOption("client_email", Str(""));
    if Empty(clientEmail) {
      return AgentCore.Failed(NoClientEmail);
    }
    if !site.isEmail(ToPhpString(clientEmail)) {
      return AgentCore.Failed(InvalidClientEmail);
    }
    var bypassLink := Status.GetBypassLink(agent, site.home);
    if Empty(Str(bypassLink)) {
      return AgentCore.Failed(NoBypassLink);
    }
    var sent := mailer.Send(BypassMail(site, clientEmail, bypassLink, localTime));
    if sent {
      r := AgentCore.Done("send_bypass_email", [("email_sent", Bool(true)), ("recipient", clientEmail), ("sent_at", Int(now))]);
    } else {
      r := AgentCore.Failed(SendFailed);
    }
  }

  /** The bypass mail can only go out while a bypass code is configured, and it carries that code's link. */
  lemma BypassMailNeedsCode(site: Wp.Site, clientEmail: Value, code: Value, localTime: string)
    requires BypassEmailError(clientEmail, site.isEmail, Status.BypassLink(site.home, code)) == None
    ensures Truthy(code)
    ensures BypassMail(site, clientEmail, Status.BypassLink(site.home, code), localTime).body
      == BypassNotice(site.name, Status.BypassLink(site.home, code), localTime)
  {
  }

  /** The headers `send_notification()` uses: the caller's, or when there are none, plain text from the site's sender. */
  function NotificationHeaders(site: Wp.Site, headers: seq<string>): (r: seq<string>)
    ensures headers != [] ==> r == headers
    ensures headers == [] ==> r == [PlainText, "From: " + FromEmail(site)]
  {
    if headers == [] then [PlainText, "From: " + FromEmail(site)] else headers
  }

  /**
   * `send_notification()`: nothing is sent to an invalid address; otherwise
   * one mail, whose result is returned.
   */
  method SendNotification(site: Wp.Site, mailer: Mailer, to: string, subject: string, body: Body, headers: seq<string>)
    returns (ok: bool)
    modifies mailer`sent
    ensures var m := Mail(to, subject, body, NotificationHeaders(site, headers));
      mailer.sent == old(mailer.sent) + (if site.isEmail(to) then [m] else [])
      && (ok <==> site.isEmail(to) && mailer.accepts(m))
  {
    if !site.isEmail(to) {
      return false;
    }
    var h := headers;
    if h == [] {
      h := [PlainText, "From: " + FromEmail(site)];
    }
    ok := mailer.Send(Mail(to, subject, body, h));
  }

  /** The lines of a sequence of items, one line per item, in order. */
  function Joined<T>(items: seq<T>, line: T -> string): string {
    if items == [] then "" else Joined(items[..|items| - 1], line) + line(items[|items| - 1])
  }

  lemma {:induction false} JoinedConcat<T>(a: seq<T>, b: seq<T>, line: T -> string)
    ensures Joined(a + b, line) == Joined(a, line) + Joined(b, line)
  {
    if b == [] {
      assert a + b == a;
    } else {
      var init := b[..|b| - 1];
      var ab := a + b;
      assert ab[..|ab| - 1] == a + init;
      assert ab[|ab| - 1] == b[|b| - 1];
      JoinedConcat(a, init, line);
    }
  }

  /** The "key: value" line of one additional-data entry. */
  function DataLine(entry: (string, Value)): string {
    entry.0 + ": " + ToPhpString(entry.1) + "\n"
  }

  /** The "key: value" lines of a system alert's additional data, one per entry, in order. */
  function DataText(data: seq<(string, Value)>): string {
    Joined(data, DataLine)
  }

  /** The lines of a concatenation are the lines of its parts. */
  lemma DataTextConcat(a: seq<(string, Value)>, b: seq<(string, Value)>)
    ensures DataText(a + b) == DataText(a) + DataText(b)
  {
    JoinedConcat(a, b, DataLine);
  }

  /** Each entry contributes exactly its own line. */
  lemma DataTextOfEntry(key: string, value: Value)
    ensures DataText([(key, value)]) == key + ": " + ToPhpString(value) + "\n"
  {
    assert [(key, value)][..0] == [];
    assert Joined([(key, value)], DataLine) == Joined([], DataLine) + DataLine((key, value));
  }

  /** The `foreach` of `send_system_alert()` that appends one line per data entry. */
  method DataLines(data: seq<(string, Value)>) returns (text: string)
    ensures text == DataText(data)
  {
    text := "";
    var i := 0;
    while i < |data|
      invariant 0 <= i <= |data|
      invariant text == DataText(data[..i])
    {
      assert data[..i + 1][..i] == data[..i];
      text := text + data[i].0 + ": " + ToPhpString(data[i].1) + "\n";
      i := i + 1;
    }
    assert data[..i] == data;
  }

  /** The part of an alert body that lists the additional data; nothing when there is none. */
  function AlertAdditional(data: seq<(string, Value)>): string {
    if data == [] then "" else "\n\nAdditional Information:\n" + DataText(data)
  }

  /** `[Mr.WordPress] Alert: <type> - <site name>`. */
  function AlertSubject(alertType: string, siteName: string): string {
    "[Mr.WordPress] Alert: " + alertType + " - " + siteName
  }

  /**
   * `send_system_alert()`: nothing without a client email, and nothing to an
   * invalid one; otherwise one notification to the client email carrying the
   * additional data lines.
   */
  method SendSystemAlert(agent: AgentCore.Agent, site: Wp.Site, mailer: Mailer, alertType: string, message: string,
                         data: seq<(string, Value)>, localTime: string) returns (ok: bool)
    modifies mailer`sent
    ensures var email := agent.GetOption("client_email", Str(""));
      var m := Mail(ToPhpString(email), AlertSubject(alertType, site.name),
        AlertNotice(site.name, alertType, message, localTime, site.home, AlertAdditional(data)),
        NotificationHeaders(site, []));
      var goes := Truthy(email) && site.isEmail(ToPhpString(email));
      mailer.sent == old(mailer.sent) + (if goes then [m] else [])
      && (ok <==> goes && mailer.accepts(m))
  {
    var clientEmail := agent.GetOption("client_email", Str(""));
    if Empty(clientEmail) {
      return false;
    }
    var additional := "";
    if data != [] {
      var lines := DataLines(data);
      additional := "\n\nAdditional Information:\n" + lines;
    }
    var body := AlertNotice(site.name, alertType, message, localTime, Wp.HomeUrl(site.home, ""), additional);
    ok := SendNotification(site, mailer, ToPhpString(clientEmail), AlertSubject(alertType, site.name), body, []);
  }

  /** `$test_email ?: get_option('client_email', '')`. */
  function TestRecipient(testEmail: Value, clientEmail: Value): (r: Value)
    ensures Truthy(testEmail) ==> r == testEmail
    ensures Empty(testEmail) ==> r == clientEmail
    ensures Empty(r) <==> Empty(testEmail) && Empty(clientEmail)
  {
    if Truthy(testEmail) then testEmail else clientEmail
  }

  /** The result of `test_email_config()`: a refusal, or a delivery attempt. */
  datatype TestReport =
    | NotTested(reason: string)
    | Tested(success: bool, recipient: Value, sentAt: int, error: Option<string>)

  const TestSubject: string := "[Mr.WordPress] Test Email"

  /**
   * `test_email_config()`: no recipient or an invalid one is refused without
   * sending; otherwise one test mail, and the report's error is present
   * exactly when the send failed.
   */
  method TestEmailConfig(agent: AgentCore.Agent, site: Wp.Site, mailer: Mailer, testEmail: Value, now: int, localTime: string)
    returns (r: TestReport)
    modifies mailer`sent
    ensures var to := TestRecipient(testEmail, agent.GetOption("client_email", Str("")));
      var m := Mail(ToPhpString(to), TestSubject, TestNotice(site.name, localTime), NotificationHeaders(site, []));
      (Empty(to) ==> r == NotTested("No recipient email address") && mailer.sent == old(mailer.sent))
      && (Truthy(to) && !site.isEmail(ToPhpString(to)) ==> r == NotTested("Invalid email address") && mailer.sent == old(mailer.sent))
      && (Truthy(to) && site.isEmail(ToPhpString(to)) ==> (mailer.sent == old(mailer.sent) + [m]
            && r == Tested(mailer.accepts(m), to, now, if mailer.accepts(m) then None else Some("Failed to send test email"))))
    ensures r.Tested? ==> (r.error.None? <==> r.success)
  {
    var recipient := if Truthy(testEmail) then testEmail else agent.GetOption("client_email", Str(""));
    if Empty(recipient) {
      return NotTested("No recipient email address");
    }
    if !site.isEmail(ToPhpString(recipient)) {
      return NotTested("Invalid email address");
    }
    var sent := SendNotification(site, mailer, ToPhpString(recipient), TestSubject, TestNotice(site.name, localTime), []);
    r := Tested(sent, recipient, now, if sent then None else Some("Failed to send test email"));
  }

  /** `log_email_activity()`: append {time(), action, data} to 'mrwp_email_log' and keep the last 50. */
  method LogEmailActivity(store: Wp.Options, action: string, data: seq<(string, Value)>, now: int)
    modifies store`emailLog
    ensures store.emailLog == Append(old(store.emailLog), Stamped(now, EmailActivity(action, data)), EmailLogLimit)
  {
    var log := store.emailLog;
    log := log + [Stamped(now, EmailActivity(action, data))];
    if |log| > EmailLogLimit {
      log := log[|log| - EmailLogLimit..];
    }
    store.emailLog := log;
  }

  /** `get_email_log($limit)`: the newest `limit` entries, newest first; the PHP default limit of 20 is the caller's argument here. */
  method GetEmailLog(store: Wp.Options, limit: int) returns (r: seq<Stamped<EmailActivity>>)
    ensures NewestFirst(r) && multiset(r) <= multiset(store.emailLog)
    ensures limit >= 0 ==> |r| == if limit < |store.emailLog| then limit else |store.emailLog|
    ensures limit < 0 ==> |r| == if |store.emailLog| + limit > 0 then |store.emailLog| + limit else 0
    ensures forall x, j :: x in multiset(store.emailLog) - multiset(r) && 0 <= j < |r| ==> x.timestamp <= r[j].timestamp
    ensures forall t :: AtTime(r, t) <= AtTime(store.emailLog, t)
  {
    r := NewestEntries(store.emailLog, limit);
  }
}
