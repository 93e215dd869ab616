/** The request-building half of the Pwnboard client: validating the base
    URI, serialising log levels, and building the JSON body and target URL
    of the three reports (box access, credential, log). Sending the request
    is network I/O and is not part of this module. */
module Pwnboard {
  import opened Wrappers
  import opened Json

  /** The failures the client can report before anything is sent. */
  datatype PwnError =
    | BlankUri        // the URI has no last character
    | TrailingSlash   // the URI ends in '/'
    | JsonNotObject   // a body to insert into is not a JSON object

  /** The client. Its HTTP connection handle is not modelled. The URI is a
      public field, so a caller may replace it after construction. */
  datatype Pwnboard = Pwnboard(uri: string)

  /** What one report call would POST: the target URL and the JSON body. */
  datatype Request = Request(url: string, body: Value)

  const BoxAccessRoute: string := "/pwn/boxaccess"
  const CredentialRoute: string := "/pwn/credential"
  const LogRoute: string := "/pwn/log"

  /** A URI the client accepts: it has a last character and that is not '/'. */
  predicate ValidUri(uri: string) {
    |uri| > 0 && uri[|uri| - 1] != '/'
  }

  /** The last character of a string, if it has one. */
  function LastChar(s: string): (r: Option<char>)
    ensures r.Some? <==> |s| > 0
    ensures r.Some? ==> r.value == s[|s| - 1]
  {
    if |s| == 0 then None else Some(s[|s| - 1])
  }

  /** `Pwnboard::new`: fails on a blank URI or one with a trailing slash,
      and otherwise keeps the URI exactly as given. */
  function New(uri: string): (r: Result<Pwnboard, PwnError>)
    ensures r == Err(BlankUri) <==> |uri| == 0
    ensures r == Err(TrailingSlash) <==> |uri| > 0 && uri[|uri| - 1] == '/'
    ensures r.Ok? <==> ValidUri(uri)
    ensures r.Ok? ==> r.value.uri == uri && ValidUri(r.value.uri)
  {
    var last :- LastChar(uri).OkOr(BlankUri);
    if last == '/' then Err(TrailingSlash) else Ok(Pwnboard(uri))
  }

  // ---------------------------------------------------------------------
  // Log levels

  datatype LogLevel = Loot | Info | Warn | Error

  /** The name `{:?}` prints for a level: the variant's own name, one
      capital letter followed by lower-case ones. */
  function DebugName(level: LogLevel): (name: string)
    ensures |name| >= 4 && IsUpper(name[0])
    ensures forall i :: 1 <= i < |name| ==> 'a' <= name[i] <= 'z'
  {
    match level
    case Loot => "Loot"
    case Info => "Info"
    case Warn => "Warn"
    case Error => "Error"
  }

  predicate IsUpper(c: char) {
    'A' <= c <= 'Z'
  }

  /** Lower-cases one ASCII letter and leaves every other character alone. */
  function LowerChar(c: char): (r: char)
    ensures IsUpper(c) ==> r as int == c as int + 32
    ensures !IsUpper(c) ==> r == c
  {
    if IsUpper(c) then (c as int + 32) as char else c
  }

  /** `to_lowercase` on ASCII text: every character lowered in place. */
  function ToLowercase(s: string): (r: string)
    ensures |r| == |s|
    ensures forall i :: 0 <= i < |s| ==> r[i] == LowerChar(s[i])
  {
    if s == [] then [] else [LowerChar(s[0])] + ToLowercase(s[1..])
  }

  /** `impl From<LogLevel> for Value`: the level's debug name, lower-cased,
      as a JSON string. */
  function LevelValue(level: LogLevel): (v: Value)
    ensures level == Loot ==> v == JString("loot")
    ensures level == Info ==> v == JString("info")
    ensures level == Warn ==> v == JString("warn")
    ensures level == Error ==> v == JString("error")
  {
    LowercaseLevelNames();
    JString(ToLowercase(DebugName(level)))
  }

  /** Lower-casing the four debug names character by character. */
  lemma LowercaseLevelNames()
    ensures ToLowercase("Loot") == "loot"
    ensures ToLowercase("Info") == "info"
    ensures ToLowercase("Warn") == "warn"
    ensures ToLowercase("Error") == "error"
  {
    assert ToLowercase("Loot")[0] == LowerChar('L');
    assert ToLowercase("Info")[0] == LowerChar('I');
    assert ToLowercase("Warn")[0] == LowerChar('W');
    assert ToLowercase("Error")[0] == LowerChar('E');
  }

  /** Distinct levels are sent as distinct strings, so the board can tell
      every level apart. */
  lemma LevelValueInjective(a: LogLevel, b: LogLevel)
    requires LevelValue(a) == LevelValue(b)
    ensures a == b
  {
  }

  // ---------------------------------------------------------------------
  // Request bodies

  /** The key an optional argument adds to a body: one key when present,
      none when absent. */
  function Present<T>(key: string, arg: Option<T>): (keys: set<string>)
    ensures arg.Some? <==> key in keys
    ensures keys <= {key}
  {
    if arg.Some? then {key} else {}
  }

  /** An optional string argument appears in the body under its key,
      verbatim, exactly when it was given. */
  predicate Carries(fields: map<string, Value>, key: string, arg: Option<string>) {
    if arg.Some? then key in fields && fields[key] == JString(arg.value)
    else key !in fields
  }

  /** No value of the body is JSON null. */
  predicate NoNulls(fields: map<string, Value>) {
    forall k :: k in fields ==> fields[k] != JNull
  }

  /** `output_json.as_object_mut().ok_or(...)?.insert(key, val)`: sets one
      key of an object body, replacing any earlier value under that key and
      keeping every other entry; a body that is not an object is an error. */
  function InsertField(body: Value, key: string, val: Value): (r: Result<Value, PwnError>)
    ensures r.Ok? <==> body.JObject?
    ensures r.Err? ==> r.error == JsonNotObject
    ensures r.Ok? ==> (r.value.JObject?
      && r.value.fields.Keys == body.fields.Keys + {key}
      && r.value.fields[key] == val
      && forall k :: k in body.fields && k != key ==> r.value.fields[k] == body.fields[k])
  {
    var fields :- AsObject(body).OkOr(JsonNotObject);
    Ok(JObject(fields[key := val]))
  }

  /** `boxaccess`: the body holds `ip` and `application`, plus `ips`,
      `access_type` and `message` for each one given, each value verbatim;
      it is posted to the client's URI followed by `/pwn/boxaccess`. */
  method BoxAccess(pwn: Pwnboard, ip: string, application: string,
                   ips: Option<seq<string>>, accessType: Option<string>,
                   message: Option<string>)
    returns (r: Result<Request, PwnError>)
    ensures r.Ok?
    ensures r.value.url == pwn.uri + BoxAccessRoute
    ensures r.value.body.JObject?
    ensures r.value.body.fields.Keys == {"ip", "application"}
      + Present("ips", ips) + Present("access_type", accessType) + Present("message", message)
    ensures r.value.body.fields["ip"] == JString(ip)
    ensures r.value.body.fields["application"] == JString(application)
    ensures ips.Some? ==> r.value.body.fields["ips"] == JArray(FromStrings(ips.value))
    ensures Carries(r.value.body.fields, "access_type", accessType)
    ensures Carries(r.value.body.fields, "message", message)
    ensures NoNulls(r.value.body.fields)
  {
    var body := JObject(map["ip" := JString(ip), "application" := JString(application)]);
    if ips.Some? {
      var inserted := InsertField(body, "ips", JArray(FromStrings(ips.value)));
      if inserted.IsFailure() {
        // `?` would return the error here; the body is always an object
        assert false;
      }
      body := inserted.value;
    }
    assert body.JObject? && NoNulls(body.fields);
    assert body.fields.Keys == {"ip", "application"} + Present("ips", ips);
    assert body.fields["ip"] == JString(ip) && body.fields["application"] == JString(application);
    assert ips.Some? ==> body.fields["ips"] == JArray(FromStrings(ips.value));
    if accessType.Some? {
      var inserted := InsertField(body, "access_type", JString(accessType.value));
      if inserted.IsFailure() {
        // `?` would return the error here; the body is always an object
        assert false;
      }
      body := inserted.value;
    }
    assert body.JObject? && NoNulls(body.fields);
    assert body.fields.Keys == {"ip", "application"} + Present("ips", ips) + Present("access_type", accessType);
    assert body.fields["ip"] == JString(ip) && body.fields["application"] == JString(application);
    assert ips.Some? ==> body.fields["ips"] == JArray(FromStrings(ips.value));
    assert Carries(body.fields, "access_type", accessType);
    if message.Some? {
      var inserted := InsertField(body, "message", JString(message.value));
      if inserted.IsFailure() {
        // `?` would return the error here; the body is always an object
        assert false;
      }
      body := inserted.value;
    }
    r := Ok(Request(pwn.uri + BoxAccessRoute, body));
  }

  /** `credential`: the body holds `ip`, `service` and `password`, plus
      `message` and `username` for each one given, each value verbatim;
      it is posted to the client's URI followed by `/pwn/credential`. */
  method Credential(pwn: Pwnboard, ip: string, service: string,
                    message: Option<string>, username: Option<string>,
                    password: string)
    returns (r: Result<Request, PwnError>)
    ensures r.Ok?
    ensures r.value.url == pwn.uri + CredentialRoute
    ensures r.value.body.JObject?
    ensures r.value.body.fields.Keys == {"ip", "service", "password"}
      + Present("message", message) + Present("username", username)
    ensures r.value.body.fields["ip"] == JString(ip)
    ensures r.value.body.fields["service"] == JString(service)
    ensures r.value.body.fields["password"] == JString(password)
    ensures Carries(r.value.body.fields, "message", message)
    ensures Carries(r.value.body.fields, "username", username)
    ensures NoNulls(r.value.body.fields)
  {
    var body := JObject(map["ip" := JString(ip), "service" := JString(service),
                            "password" := JString(password)]);
    if message.Some? {
      var inserted := InsertField(body, "message", JString(message.value));
      if inserted.IsFailure() {
        // `?` would return the error here; the body is always an object
        assert false;
      }
      body := inserted.value;
    }
    if username.Some? {
      var inserted := InsertField(body, "username", JString(username.value));
      if inserted.IsFailure() {
        // `?` would return the error here; the body is always an object
        assert false;
      }
      body := inserted.value;
    }
    r := Ok(Request(pwn.uri + CredentialRoute, body));
  }

  /** `log`: the body holds `ip`, `message` and `service`, plus `level`
      when one is given, as the level's lower-case name; it is posted to
      the client's URI followed by `/pwn/log`. */
  method Log(pwn: Pwnboard, ip: string, message: string, service: string,
             level: Option<LogLevel>)
    returns (r: Result<Request, PwnError>)
    ensures r.Ok?
    ensures r.value.url == pwn.uri + LogRoute
    ensures r.value.body.JObject?
    ensures r.value.body.fields.Keys == {"ip", "message", "service"} + Present("level", level)
    ensures r.value.body.fields["ip"] == JString(ip)
    ensures r.value.body.fields["message"] == JString(message)
    ensures r.value.body.fields["service"] == JString(service)
    ensures level.Some? ==> r.value.body.fields["level"] == LevelValue(level.value)
    ensures NoNulls(r.value.body.fields)
  {
    var body := JObject(map["ip" := JString(ip), "message" := JString(message),
                            "service" := JString(service)]);
    if level.Some? {
      var inserted := InsertField(body, "level", LevelValue(level.value));
      if inserted.IsFailure() {
        // `?` would return the error here; the body is always an object
        assert false;
      }
      body := inserted.value;
    }
    r := Ok(Request(pwn.uri + LogRoute, body));
  }

  // ---------------------------------------------------------------------
  // Target URLs

  /** For a client built by New, every target URL is the given URI with the
      route appended, and the route's leading '/' never follows another '/'. */
  lemma RouteJoinsOnce(uri: string, pwn: Pwnboard, route: string)
    requires New(uri) == Ok(pwn)
    requires route in {BoxAccessRoute, CredentialRoute, LogRoute}
    ensures |pwn.uri + route| == |uri| + |route|
    ensures (pwn.uri + route)[..|uri|] == uri
    ensures (pwn.uri + route)[|uri|..] == route
    ensures (pwn.uri + route)[|uri| - 1] != '/'
    ensures (pwn.uri + route)[|uri|] == '/'
  {
  }

  // ---------------------------------------------------------------------
  // Worked examples: what a caller can conclude from the contracts alone

  method LogExample() {
    var created := New("https://board.test");
    var pwn := created.value;
    var r := Log(pwn, "10.0.0.5", "shell obtained", "ssh", Some(Loot));
    assert r.value.url == "https://board.test/pwn/log";
    assert r.value.body == JObject(map["ip" := JString("10.0.0.5"),
                                       "message" := JString("shell obtained"),
                                       "service" := JString("ssh"),
                                       "level" := JString("loot")]);
  }

  method CredentialExample(pwn: Pwnboard) {
    var r := Credential(pwn, "10.0.0.5", "ftp", None, None, "hunter2");
    assert r.value.body == JObject(map["ip" := JString("10.0.0.5"),
                                       "service" := JString("ftp"),
                                       "password" := JString("hunter2")]);
  }
}
