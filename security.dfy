/**
 * HMAC authentication of the agent's REST routes: header lookup, the
 * presence, time-window and signature checks in their fixed order, the
 * signature the agent computes and sends, and the random secret generator.
 */
module Security {
  import opened Php
  import Wp
  import AgentCore

  /** Requests are accepted up to five minutes either side of the server clock. */
  const TimeWindow: int := 300

  const TimestampHeader: string := "x-mrwp-timestamp"
  const SignatureHeader: string := "x-mrwp-signature"

  predicate IsLowerHex(c: char) {
    '0' <= c <= '9' || 'a' <= c <= 'f'
  }

  /** What `hash_hmac('sha256', …)` returns: 64 lower-case hexadecimal digits. */
  type Digest = s: string | |s| == 64 && forall i :: 0 <= i < |s| ==> IsLowerHex(s[i])
    witness seq(64, i => '0')

  /** HMAC-SHA256 as a function of (key, message); its internals are not modelled. */
  type Hmac = (string, string) -> Digest

  // ---------------------------------------------------------------------
  // Header lookup

  /** `'HTTP_' . strtoupper(str_replace('-', '_', $name))`: where CGI puts a request header in `$_SERVER`. */
  function ServerKey(name: string): (r: string)
    ensures |r| == 5 + |name| && r[..5] == "HTTP_"
    ensures forall i :: 0 <= i < |name| ==> r[5 + i] == UpperChar(if name[i] == '-' then '_' else name[i])
  {
    "HTTP_" + Upper(ReplaceChar(name, '-', '_'))
  }

  /** The header name `get_all_headers` rebuilds from an `HTTP_…` key: `X_MRWP_TIMESTAMP` becomes `X-Mrwp-Timestamp`. */
  function HeaderNameOf(key: string): (r: string)
    requires StartsWith(key, "HTTP_")
    ensures |r| == |key| - 5
  {
    ReplaceChar(Ucwords(ReplaceChar(Lower(key[5..]), '_', ' ')), ' ', '-')
  }

  /** The fallback of `get_all_headers` over the first entries of `$_SERVER`. */
  function FallbackHeaders(server: seq<(string, string)>): seq<(string, string)>
  {
    if server == [] then []
    else
      var headers := FallbackHeaders(server[..|server| - 1]);
      var (key, value) := server[|server| - 1];
      if StartsWith(key, "HTTP_") then Put(headers, HeaderNameOf(key), value) else headers
  }

  /** `get_all_headers()`: `getallheaders()` where it exists, else the headers rebuilt from `$_SERVER`. */
  function AllHeaders(req: Wp.Request): seq<(string, string)> {
    if req.nativeHeaders.Some? then req.nativeHeaders.value else FallbackHeaders(req.server)
  }

  method GetAllHeaders(req: Wp.Request) returns (headers: seq<(string, string)>)
    ensures headers == AllHeaders(req)
  {
    if req.nativeHeaders.Some? {
      return req.nativeHeaders.value;
    }
    headers := [];
    var i := 0;
    while i < |req.server|
      invariant 0 <= i <= |req.server|
      invariant headers == FallbackHeaders(req.server[..i])
    {
      var (key, value) := req.server[i];
      assert req.server[..i + 1][..i] == req.server[..i];
      if StartsWith(key, "HTTP_") {
        headers := Put(headers, HeaderNameOf(key), value);
      }
      i := i + 1;
    }
    assert req.server[..i] == req.server;
  }

  /** Whether a `$_SERVER` entry is a request header that the fallback lists under `name`. */
  predicate Yields(entry: (string, string), name: string) {
    StartsWith(entry.0, "HTTP_") && HeaderNameOf(entry.0) == name
  }

  /** Every `HTTP_` entry of `$_SERVER` yields a header under its rebuilt name; other entries yield none. */
  lemma {:induction false} FallbackHeadersFound(server: seq<(string, string)>, name: string)
    ensures Lookup(FallbackHeaders(server), name).Some? <==> exists i :: 0 <= i < |server| && Yields(server[i], name)
  {
    if server != [] {
      var init := server[..|server| - 1];
      var last := server[|server| - 1];
      FallbackHeadersFound(init, name);
      var h := FallbackHeaders(init);
      assert FallbackHeaders(server) == if StartsWith(last.0, "HTTP_") then Put(h, HeaderNameOf(last.0), last.1) else h;
      assert Lookup(FallbackHeaders(server), name).Some? <==> Lookup(h, name).Some? || Yields(last, name);
      assert (exists i :: 0 <= i < |init| && Yields(init[i], name)) <==> (exists i :: 0 <= i < |server| - 1 && Yields(server[i], name)) by {
        forall i | 0 <= i < |init| ensures init[i] == server[i] { }
      }
    }
  }

  /** The first header, in order, whose lower-cased name is `lname`. */
  function FindHeader(headers: seq<(string, string)>, lname: string): (r: Option<string>)
    ensures r.None? <==> forall j :: 0 <= j < |headers| ==> Lower(headers[j].0) != lname
    ensures r.Some? ==> exists j :: (0 <= j < |headers| && Lower(headers[j].0) == lname && headers[j].1 == r.value
      && forall i :: 0 <= i < j ==> Lower(headers[i].0) != lname)
  {
    if headers == [] then None
    else if Lower(headers[0].0) == lname then Some(headers[0].1)
    else
      var r := FindHeader(headers[1..], lname);
      assert r.Some? ==> exists j :: (1 <= j < |headers| && Lower(headers[j].0) == lname && headers[j].1 == r.value
        && forall i :: 0 <= i < j ==> Lower(headers[i].0) != lname) by {
        if r.Some? {
          var j :| 0 <= j < |headers[1..]| && Lower(headers[1..][j].0) == lname && headers[1..][j].1 == r.value
            && forall i :: 0 <= i < j ==> Lower(headers[1..][i].0) != lname;
          assert forall i :: 1 <= i < j + 1 ==> Lower(headers[i].0) != lname by {
            forall i | 1 <= i < j + 1 ensures Lower(headers[i].0) != lname {
              assert headers[i] == headers[1..][i - 1];
            }
          }
        }
      }
      r
  }

  /** `get_header($name)`: the `HTTP_…` server entry if set, else the first header matching case-insensitively, else null. */
  function HeaderValue(req: Wp.Request, name: string): Option<string> {
    var direct := Lookup(req.server, ServerKey(name));
    if direct.Some? then direct else FindHeader(AllHeaders(req), Lower(name))
  }

  method GetHeader(req: Wp.Request, name: string) returns (v: Option<string>)
    ensures v == HeaderValue(req, name)
  {
    var direct := Lookup(req.server, ServerKey(name));
    if direct.Some? {
      return direct;
    }
    var headers := GetAllHeaders(req);
    var lname := Lower(name);
    var i := 0;
    while i < |headers|
      invariant 0 <= i <= |headers|
      invariant forall j :: 0 <= j < i ==> Lower(headers[j].0) != lname
    {
      if Lower(headers[i].0) == lname {
        ghost var r := FindHeader(headers, lname);
        ghost var j :| 0 <= j < |headers| && Lower(headers[j].0) == lname && headers[j].1 == r.value
          && forall k :: 0 <= k < j ==> Lower(headers[k].0) != lname;
        assert i == j;
        return Some(headers[i].1);
      }
      i := i + 1;
    }
    return None;
  }

  /** One character through the server key and back: only its case can change. */
  lemma RoundTripChar(x: char, up: char, a: char, b: char, c: char, d: char)
    requires x != '_' && x != ' '
    requires up == UpperChar(if x == '-' then '_' else x)
    requires a == LowerChar(up) && b == (if a == '_' then ' ' else a)
    requires c == b || c == UpperChar(b)
    requires d == (if c == ' ' then '-' else c)
    ensures LowerChar(d) == LowerChar(x)
  {
  }

  /**
   * For a header name without `_` or spaces, the name rebuilt from its
   * server key is the same name up to case, so the fallback lookup finds
   * what the direct lookup would.
   */
  lemma HeaderNameRoundTrip(name: string)
    requires forall i :: 0 <= i < |name| ==> name[i] != '_' && name[i] != ' '
    ensures Lower(HeaderNameOf(ServerKey(name))) == Lower(name)
  {
    var key := ServerKey(name);
    var up := Upper(ReplaceChar(name, '-', '_'));
    assert key == "HTTP_" + up;
    assert key[5..] == up;
    var a := Lower(up);
    var b := ReplaceChar(a, '_', ' ');
    var c := Ucwords(b);
    var d := ReplaceChar(c, ' ', '-');
    assert d == HeaderNameOf(key);
    forall i | 0 <= i < |name|
      ensures Lower(d)[i] == Lower(name)[i]
    {
      assert c[i] == b[i] || c[i] == UpperChar(b[i]);
      RoundTripChar(name[i], up[i], a[i], b[i], c[i], d[i]);
    }
    assert |Lower(d)| == |Lower(name)|;
  }

  // ---------------------------------------------------------------------
  // Signature checking

  datatype AuthError = MissingAuthHeaders | InvalidTimestamp | InvalidSignature
  {
    function Code(): string {
      match this
      case MissingAuthHeaders => "missing_auth_headers"
      case InvalidTimestamp => "invalid_timestamp"
      case InvalidSignature => "invalid_signature"
    }

    function Message(): string {
      match this
      case MissingAuthHeaders => "Missing authentication headers"
      case InvalidTimestamp => "Request timestamp is outside acceptable window"
      case InvalidSignature => "Invalid HMAC signature"
    }

    /** Every authentication error carries HTTP status 401. */
    function Status(): int {
      401
    }
  }

  /** What `validate_hmac_signature` returns: true, or one of the three errors. */
  datatype Verdict = Accepted | Rejected(error: AuthError)

  /** `!$header`: an absent header and the falsy strings "" and "0" all count as missing. */
  predicate Missing(header: Option<string>) {
    header.None? || Empty(Str(header.value))
  }

  function Abs(x: int): int {
    if x < 0 then -x else x
  }

  /**
   * `calculate_hmac_signature($timestamp, $body)`: HMAC-SHA256 of the
   * timestamp text, a newline and the body under the site secret, or the
   * empty string when no secret is configured.
   */
  function CalculateHmacSignature(hmac: Hmac, secret: Value, timestamp: string, body: string): (r: string)
    ensures r == "" <==> Empty(secret)
  {
    if Empty(secret) then "" else hmac(ToPhpString(secret), timestamp + "\n" + body)
  }

  /** The three checks of `validate_hmac_signature`, in order, on the header values it read. */
  function CheckRequest(hmac: Hmac, secret: Value, now: int, timestamp: Option<string>, signature: Option<string>, body: string): (v: Verdict)
    ensures v == Rejected(MissingAuthHeaders) <==> Missing(timestamp) || Missing(signature)
    ensures v == Rejected(InvalidTimestamp) <==> (!Missing(timestamp) && !Missing(signature)
      && Abs(now - IntVal(timestamp.value)) > TimeWindow)
    ensures v == Accepted ==> (Truthy(secret) && timestamp.Some? && signature.Some?
      && Abs(now - IntVal(timestamp.value)) <= TimeWindow
      && signature.value == hmac(ToPhpString(secret), timestamp.value + "\n" + body))
  {
    if Missing(timestamp) || Missing(signature) then Rejected(MissingAuthHeaders)
    else if Abs(now - IntVal(timestamp.value)) > TimeWindow then Rejected(InvalidTimestamp)
    else if CalculateHmacSignature(hmac, secret, timestamp.value, body) != signature.value then Rejected(InvalidSignature)
    else Accepted
  }

  /** `validate_hmac_signature()` for the request, with the site secret read from the agent's options. */
  method ValidateHmacSignature(hmac: Hmac, agent: AgentCore.Agent, now: int, req: Wp.Request) returns (v: Verdict)
    ensures v == CheckRequest(hmac, agent.GetOption("site_secret", Str("")), now,
      HeaderValue(req, TimestampHeader), HeaderValue(req, SignatureHeader), req.body)
  {
    var timestamp := GetHeader(req, TimestampHeader);
    var signature := GetHeader(req, SignatureHeader);
    if Missing(timestamp) || Missing(signature) {
      return Rejected(MissingAuthHeaders);
    }
    var requestTime := IntVal(timestamp.value);
    if Abs(now - requestTime) > TimeWindow {
      return Rejected(InvalidTimestamp);
    }
    var secret := agent.GetOption("site_secret", Str(""));
    var expected := CalculateHmacSignature(hmac, secret, timestamp.value, req.body);
    if expected != signature.value {
      return Rejected(InvalidSignature);
    }
    return Accepted;
  }

  /** A missing header decides the verdict alone: the clock, the secret, the body and the other header play no part. */
  lemma MissingHeadersDecide(hmac: Hmac, secret: Value, now: int, timestamp: Option<string>, signature: Option<string>, body: string,
                             hmac': Hmac, secret': Value, now': int, other: Option<string>, body': string)
    requires Missing(timestamp) || Missing(signature)
    ensures CheckRequest(hmac, secret, now, timestamp, signature, body) == Rejected(MissingAuthHeaders)
    ensures Missing(timestamp) ==> CheckRequest(hmac', secret', now', timestamp, other, body') == Rejected(MissingAuthHeaders)
    ensures Missing(signature) ==> CheckRequest(hmac', secret', now', other, signature, body') == Rejected(MissingAuthHeaders)
  {
  }

  /** With both headers present, the timestamp is refused exactly when `intval` of it is more than 300 s from now. */
  lemma WindowCheck(hmac: Hmac, secret: Value, now: int, timestamp: string, signature: string, body: string)
    requires !Missing(Some(timestamp)) && !Missing(Some(signature))
    ensures CheckRequest(hmac, secret, now, Some(timestamp), Some(signature), body) == Rejected(InvalidTimestamp)
      <==> !(now - TimeWindow <= IntVal(timestamp) <= now + TimeWindow)
  {
  }

  /** A positive time in range prints as a present header that `intval` reads back. */
  lemma TimestampReadsBack(t: int)
    requires 0 < t <= IntMax
    ensures !Missing(Some(DecimalString(t))) && IntVal(DecimalString(t)) == t
  {
    IntValOfDecimal(t);
    DecimalStringTruthy(t);
  }

  /** The boundary of the window: 300 s either way passes the time check, 301 s either way does not. */
  lemma WindowBoundary(hmac: Hmac, secret: Value, now: int, signature: string, body: string)
    requires 301 < now <= IntMax - 301
    requires !Missing(Some(signature))
    ensures CheckRequest(hmac, secret, now, Some(DecimalString(now - 300)), Some(signature), body) != Rejected(InvalidTimestamp)
    ensures CheckRequest(hmac, secret, now, Some(DecimalString(now + 300)), Some(signature), body) != Rejected(InvalidTimestamp)
    ensures CheckRequest(hmac, secret, now, Some(DecimalString(now - 301)), Some(signature), body) == Rejected(InvalidTimestamp)
    ensures CheckRequest(hmac, secret, now, Some(DecimalString(now + 301)), Some(signature), body) == Rejected(InvalidTimestamp)
  {
    TimestampReadsBack(now - 300);
    WindowCheck(hmac, secret, now, DecimalString(now - 300), signature, body);
    TimestampReadsBack(now + 300);
    WindowCheck(hmac, secret, now, DecimalString(now + 300), signature, body);
    TimestampReadsBack(now - 301);
    WindowCheck(hmac, secret, now, DecimalString(now - 301), signature, body);
    TimestampReadsBack(now + 301);
    WindowCheck(hmac, secret, now, DecimalString(now + 301), signature, body);
  }

  /** With no secret configured the expected signature is '', which no present signature equals. */
  lemma FailsClosed(hmac: Hmac, secret: Value, now: int, timestamp: Option<string>, signature: Option<string>, body: string)
    requires Empty(secret)
    ensures CheckRequest(hmac, secret, now, timestamp, signature, body) != Accepted
  {
  }

  /**
   * Past the presence and time checks, a request is accepted exactly when its
   * signature is the HMAC of the raw timestamp header, a newline and the body.
   */
  lemma SignatureCheck(hmac: Hmac, secret: Value, now: int, timestamp: string, signature: string, body: string)
    requires Truthy(secret)
    requires !Missing(Some(timestamp)) && !Missing(Some(signature))
    requires Abs(now - IntVal(timestamp)) <= TimeWindow
    ensures CheckRequest(hmac, secret, now, Some(timestamp), Some(signature), body) == Accepted
      <==> signature == hmac(ToPhpString(secret), timestamp + "\n" + body)
  {
  }

  // ---------------------------------------------------------------------
  // Outgoing signatures

  /** `generate_hmac_headers($body)` at time `now`: the timestamp as an integer and its signature. */
  function GenerateHmacHeaders(hmac: Hmac, secret: Value, now: int, body: string): (r: seq<(string, Value)>)
    ensures |r| == 2 && r[0].0 == TimestampHeader && r[1].0 == SignatureHeader
  {
    var signature := CalculateHmacSignature(hmac, secret, DecimalString(now), body);
    [(TimestampHeader, Int(now)), (SignatureHeader, Str(signature))]
  }

  /** The `$_SERVER` entries a web server makes of headers sent with the request. */
  function Transmit(headers: seq<(string, Value)>): (r: seq<(string, string)>)
    ensures |r| == |headers|
    ensures forall i :: 0 <= i < |r| ==> r[i] == (ServerKey(headers[i].0), ToPhpString(headers[i].1))
  {
    if headers == [] then [] else [(ServerKey(headers[0].0), ToPhpString(headers[0].1))] + Transmit(headers[1..])
  }

  lemma ServerKeysDiffer()
    ensures ServerKey(TimestampHeader) != ServerKey(SignatureHeader)
  {
    assert ServerKey(TimestampHeader)[12] == 'T';
    assert ServerKey(SignatureHeader)[12] == 'S';
  }

  /**
   * `$_SERVER` carries every header that was sent: each one's server key
   * holds its string value, whatever other entries there are.
   */
  predicate Carries(server: seq<(string, string)>, sent: seq<(string, string)>) {
    forall i :: 0 <= i < |sent| ==> Lookup(server, sent[i].0) == Some(sent[i].1)
  }

  /**
   * Round trip: headers generated at time t with a configured secret, sent
   * with the same body, pass validation at server time t. Time 0 is
   * excluded: it prints as "0", which reads as a missing header.
   */
  lemma GeneratedHeadersValidate(hmac: Hmac, secret: Value, t: int, req: Wp.Request)
    requires Truthy(secret) && t != 0 && IntMin <= t <= IntMax
    requires Carries(req.server, Transmit(GenerateHmacHeaders(hmac, secret, t, req.body)))
    ensures CheckRequest(hmac, secret, t, HeaderValue(req, TimestampHeader), HeaderValue(req, SignatureHeader), req.body) == Accepted
  {
    GeneratedHeadersArrive(hmac, secret, t, req);
    DecimalStringTruthy(t);
    IntValOfDecimal(t);
    AcceptedAtOwnTime(hmac, secret, t, DecimalString(t), req.body);
  }

  /** A present timestamp that `intval` reads as t passes all three checks at time t with its own signature. */
  lemma AcceptedAtOwnTime(hmac: Hmac, secret: Value, t: int, ts: string, body: string)
    requires Truthy(secret) && !Missing(Some(ts)) && IntVal(ts) == t
    ensures CheckRequest(hmac, secret, t, Some(ts), Some(CalculateHmacSignature(hmac, secret, ts, body)), body) == Accepted
  {
    var sig := CalculateHmacSignature(hmac, secret, ts, body);
    assert sig == hmac(ToPhpString(secret), ts + "\n" + body);
    assert !Missing(Some(sig)) by {
      assert |sig| == 64;
      assert sig != "" && sig != "0";
    }
    SignatureCheck(hmac, secret, t, ts, sig, body);
  }

  /** The generated headers come back, as strings, from the `$_SERVER` entries they are sent as. */
  lemma GeneratedHeadersArrive(hmac: Hmac, secret: Value, t: int, req: Wp.Request)
    requires Carries(req.server, Transmit(GenerateHmacHeaders(hmac, secret, t, req.body)))
    ensures HeaderValue(req, TimestampHeader) == Some(DecimalString(t))
    ensures HeaderValue(req, SignatureHeader) == Some(CalculateHmacSignature(hmac, secret, DecimalString(t), req.body))
  {
    var sent := Transmit(GenerateHmacHeaders(hmac, secret, t, req.body));
    assert sent[0] == (ServerKey(TimestampHeader), DecimalString(t));
    assert sent[1] == (ServerKey(SignatureHeader), CalculateHmacSignature(hmac, secret, DecimalString(t), req.body));
  }

  // ---------------------------------------------------------------------
  // The `rest_authentication_errors` filter

  /** What the filter returns: the `$result` it was given, or an authentication error. */
  datatype FilterResult = PassOn | Deny(error: AuthError)

  /** Routes the filter leaves alone: anything outside `/wp-json/mrwp/v1/`, and GET on the public ping. */
  predicate Exempt(uri: string, httpMethod: string) {
    !Contains(uri, "/wp-json/mrwp/v1/") || (Contains(uri, "/wp-json/mrwp/v1/ping") && httpMethod == "GET")
  }

  /** `authenticate_request($result)` given the verdict validation would reach. */
  function AuthenticateDecision(uri: string, httpMethod: string, verdict: Verdict): (r: FilterResult)
    ensures Exempt(uri, httpMethod) ==> r == PassOn
    ensures !Exempt(uri, httpMethod) ==> (r == PassOn <==> verdict == Accepted)
    ensures r.Deny? ==> verdict == Rejected(r.error)
  {
    if Exempt(uri, httpMethod) then PassOn
    else if verdict.Rejected? then Deny(verdict.error)
    else PassOn
  }

  /** `authenticate_request`: validation runs only for the routes that are not exempt. */
  method AuthenticateRequest(hmac: Hmac, agent: AgentCore.Agent, now: int, req: Wp.Request) returns (r: FilterResult)
    ensures r == AuthenticateDecision(req.uri, req.httpMethod, CheckRequest(hmac, agent.GetOption("site_secret", Str("")), now,
      HeaderValue(req, TimestampHeader), HeaderValue(req, SignatureHeader), req.body))
  {
    if !Contains(req.uri, "/wp-json/mrwp/v1/") {
      return PassOn;
    }
    if Contains(req.uri, "/wp-json/mrwp/v1/ping") && req.httpMethod == "GET" {
      return PassOn;
    }
    var validation := ValidateHmacSignature(hmac, agent, now, req);
    if validation.Rejected? {
      return Deny(validation.error);
    }
    return PassOn;
  }

  // ---------------------------------------------------------------------
  // Random secrets

  const Alphabet: string := "ABCDEFGHIJKLMNOPQRSTUVWXYZabcdefghijklmnopqrstuvwxyz0123456789"

  /**
   * `random_int($lo, $hi)`: some integer in the range, or the exception PHP
   * throws when no source of randomness is available. Which integer, and
   * whether the source fails, is outside the model.
   */
  method RandomInt(lo: int, hi: int) returns (r: Result<int>)
    requires lo <= hi
    ensures r.Ok? ==> lo <= r.value <= hi
  {
    var unavailable: bool :| true;
    if unavailable {
      r := Raised("Could not gather sufficient random data");
    } else {
      var k :| lo <= k <= hi;
      r := Ok(k);
    }
  }

  /** `generate_random_string($length)`: that many characters, each drawn from the 62-letter alphabet. */
  method GenerateRandomString(length: int) returns (r: Result<string>)
    ensures r.Ok? ==> |r.value| == (if length < 0 then 0 else length)
    ensures r.Ok? ==> forall i :: 0 <= i < |r.value| ==> r.value[i] in Alphabet
  {
    var s := "";
    var i := 0;
    while i < length
      invariant 0 <= i <= (if length < 0 then 0 else length)
      invariant |s| == i
      invariant forall j :: 0 <= j < |s| ==> s[j] in Alphabet
    {
      var k := RandomInt(0, |Alphabet| - 1);
      if k.Raised? {
        return Raised(k.message);
      }
      s := s + [Alphabet[k.value]];
      i := i + 1;
    }
    return Ok(s);
  }
}
