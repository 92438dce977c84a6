/**
 * The pure half of the query editor's connection code: where the connection
 * parameters come from, the request each operation puts on the wire, what the
 * network can answer, and how a failure becomes the message shown to the user.
 */
module Connection {
  import opened Wrappers
  import opened Text

  /** The parameters read from the settings store before every probe and query. */
  datatype Config = Config(
    host: string, port: string,
    username: string, password: string,
    namespace: string, database: string)

  /** The object literal used when nothing is stored. */
  const DefaultConfig := Config("localhost", "8001", "root", "root", "test", "test")

  /**
   * What `localStorage.getItem('surrealdb-settings')` followed by `JSON.parse`
   * yields: nothing stored (or the empty, falsy string), a well-formed settings
   * object, or text on which `JSON.parse` throws with the given message.
   */
  datatype Settings = NotStored | Stored(config: Config) | Malformed(parseError: string)

  /**
   * The config an operation uses, or the message of the exception thrown while
   * reading it. Malformed settings are an error, never a silent fallback.
   */
  function ResolveConfig(settings: Settings): (r: Result<Config, string>)
    ensures r.Failure? <==> settings.Malformed?
    ensures r.Failure? ==> r.error == settings.parseError
    ensures r.Success? ==> r.value == if settings.Stored? then settings.config else DefaultConfig
  {
    match settings
    case NotStored => Success(DefaultConfig)
    case Stored(c) => Success(c)
    case Malformed(m) => Failure(m)
  }

  /** The user-pass string of HTTP Basic authentication (section 2 of RFC 7617), before base64. */
  function Credentials(c: Config): (r: string)
    ensures |r| == |c.username| + 1 + |c.password|
    ensures r[..|c.username|] == c.username && r[|c.username|] == ':'
    ensures r[|c.username| + 1..] == c.password
  {
    c.username + ":" + c.password
  }

  /** How a server reads a user-pass string: the user-id ends at the first colon. */
  function SplitCredentials(userPass: string): Option<(string, string)> {
    match IndexOf(userPass, ':')
    case None => None
    case Some(k) => Some((userPass[..k], userPass[k + 1..]))
  }

  /** A user-id without a colon, as RFC 7617 requires, comes back intact with its password. */
  lemma CredentialsRoundTrip(c: Config)
    requires ':' !in c.username
    ensures SplitCredentials(Credentials(c)) == Some((c.username, c.password))
  {
    var s := Credentials(c);
    IndexOfAfter(c.username, ':', c.password);
    assert s == c.username + [':'] + c.password;
    assert s[..|c.username|] == c.username;
    assert s[|c.username| + 1..] == c.password;
  }

  /** The editor does not reject a colon in the user name, so two configs can send the same credentials. */
  lemma CredentialsAmbiguousWithColon()
    ensures Credentials(DefaultConfig.(username := "a:b", password := "c"))
         == Credentials(DefaultConfig.(username := "a", password := "b:c"))
    ensures SplitCredentials(Credentials(DefaultConfig.(username := "a:b", password := "c"))) != Some(("a:b", "c"))
  {
    var s := Credentials(DefaultConfig.(username := "a:b", password := "c"));
    assert s == "a:b:c";
    assert s == "a" + [':'] + "b:c";
    IndexOfAfter("a", ':', "b:c");
  }

  /** `btoa` accepts only code points up to U+00FF. */
  predicate IsLatin1(s: string) {
    forall i :: 0 <= i < |s| ==> s[i] <= '\U{00FF}'
  }

  /** The message of the exception `btoa` throws on other input (Chromium's wording). */
  const BtoaError := "Failed to execute 'btoa' on 'Window': "
    + "The string to be encoded contains " + "characters outside of the Latin1 range."

  /**
   * A request as it goes on the wire: every one is a POST with Content-Type
   * text/plain, Accept application/json and `Authorization: Basic` followed by
   * the base64 of `credentials`.
   */
  datatype Request = Request(url: string, credentials: string, body: string)

  /** `http://<host>:<port>/sql`: the one endpoint both requests go to. */
  function Endpoint(c: Config): (r: string)
    ensures |r| == 12 + |c.host| + |c.port|
    ensures r[..7] == "http://" && r[7..7 + |c.host|] == c.host && r[7 + |c.host|] == ':'
    ensures r[8 + |c.host|..8 + |c.host| + |c.port|] == c.port && r[|r| - 4..] == "/sql"
  {
    "http://" + c.host + ":" + c.port + "/sql"
  }

  /** The statements that select the configured namespace and database. */
  function ContextPrefix(c: Config): string {
    "USE NS " + c.namespace + "; USE DB " + c.database + "; "
  }

  /** The probe's body: select the context, then ask for the database info. */
  function ProbeBody(c: Config): (r: string)
    ensures |ContextPrefix(c)| <= |r| && r[..|ContextPrefix(c)|] == ContextPrefix(c)
    ensures r[|ContextPrefix(c)|..] == "INFO FOR DB;"
  {
    ContextPrefix(c) + "INFO FOR DB;"
  }

  /** A query's body: select the context, then the user's text verbatim. */
  function QueryBody(c: Config, query: string): (r: string)
    ensures |ContextPrefix(c)| <= |r| && r[..|ContextPrefix(c)|] == ContextPrefix(c)
    ensures r[|ContextPrefix(c)|..] == query
  {
    ContextPrefix(c) + query
  }

  /** The query text is appended unchanged: it can be read back from the body. */
  lemma QueryBodyVerbatim(c: Config, query: string)
    ensures QueryBody(c, query)[|ContextPrefix(c)|..] == query
    ensures forall q' :: QueryBody(c, q') == QueryBody(c, query) ==> q' == query
  {
    forall q' | QueryBody(c, q') == QueryBody(c, query)
      ensures q' == query
    {
      assert QueryBody(c, q')[|ContextPrefix(c)|..] == q';
    }
  }

  /** The probe is the query `INFO FOR DB;` sent in the same context. */
  lemma ProbeIsInfoQuery(c: Config)
    ensures ProbeBody(c) == QueryBody(c, "INFO FOR DB;")
  {
  }

  /**
   * What both handlers do before `await fetch`: read the config, encode the
   * credentials, compose the request whose body selects the context and then
   * runs `statements`. Failure carries the message of the exception thrown on
   * the way, and then no request is sent.
   */
  function Prepare(settings: Settings, statements: string): (r: Result<Request, string>)
    ensures r.Success? <==> ResolveConfig(settings).Success? && IsLatin1(Credentials(ResolveConfig(settings).value))
    ensures r.Success? ==> var c := ResolveConfig(settings).value;
      r.value == Request(Endpoint(c), Credentials(c), QueryBody(c, statements))
    ensures r.Failure? ==> r.error == if settings.Malformed? then settings.parseError else BtoaError
  {
    match ResolveConfig(settings)
    case Failure(m) => Failure(m)
    case Success(c) =>
      if IsLatin1(Credentials(c)) then Success(Request(Endpoint(c), Credentials(c), QueryBody(c, statements)))
      else Failure(BtoaError)
  }

  /** `connectToDatabase` up to `await fetch`. */
  function PrepareProbe(settings: Settings): (r: Result<Request, string>)
    ensures r.Success? <==> ResolveConfig(settings).Success? && IsLatin1(Credentials(ResolveConfig(settings).value))
    ensures r.Success? ==> var c := ResolveConfig(settings).value;
      r.value == Request(Endpoint(c), Credentials(c), ProbeBody(c))
    ensures r.Failure? ==> r.error == if settings.Malformed? then settings.parseError else BtoaError
  {
    Prepare(settings, "INFO FOR DB;")
  }

  /** `executeQuery` up to `await fetch`: the user's query is the body's tail. */
  function PrepareQuery(settings: Settings, query: string): (r: Result<Request, string>)
    ensures r.Success? <==> PrepareProbe(settings).Success?
    ensures r.Success? ==> var c := ResolveConfig(settings).value;
      r.value == PrepareProbe(settings).value.(body := QueryBody(c, query))
    ensures r.Failure? ==> r.error == PrepareProbe(settings).error
  {
    Prepare(settings, query)
  }

  /** The default credentials are root/root. */
  lemma DefaultCredentials()
    ensures Credentials(DefaultConfig) == "root:root"
  {
    var c := DefaultConfig;
    assert c.username + ":" + c.password == "root:root";
  }

  /** The default endpoint is the local SQL endpoint on port 8001. */
  lemma DefaultEndpoint()
    ensures Endpoint(DefaultConfig) == "http://localhost:8001/sql"
  {
    var c := DefaultConfig;
    assert "http://" + c.host + ":" + c.port + "/sql" == "http://localhost:8001/sql";
  }

  /** The default context selects namespace and database test. */
  lemma DefaultContext()
    ensures ContextPrefix(DefaultConfig) == "USE NS test; USE DB test; "
  {
    var c := DefaultConfig;
    assert "USE NS " + c.namespace + "; USE DB " + c.database + "; " == "USE NS test; USE DB test; ";
  }

  /** With nothing stored, a request goes to localhost:8001 as root/root, in test/test. */
  lemma DefaultPrepare(statements: string)
    ensures Prepare(NotStored, statements)
         == Success(Request("http://localhost:8001/sql", "root:root", "USE NS test; USE DB test; " + statements))
  {
    DefaultCredentials();
    DefaultEndpoint();
    DefaultContext();
    assert IsLatin1("root:root");
  }

  /** With nothing stored, the probe goes to localhost:8001 as root/root in test/test. */
  lemma DefaultProbeRequest()
    ensures PrepareProbe(NotStored)
         == Success(Request("http://localhost:8001/sql", "root:root", "USE NS test; USE DB test; INFO FOR DB;"))
  {
    DefaultPrepare("INFO FOR DB;");
    assert "USE NS test; USE DB test; " + "INFO FOR DB;" == "USE NS test; USE DB test; INFO FOR DB;";
  }

  /** With nothing stored, a query is sent to the same place, in test/test. */
  lemma DefaultQueryRequest(query: string)
    ensures PrepareQuery(NotStored, query)
         == Success(Request("http://localhost:8001/sql", "root:root", "USE NS test; USE DB test; " + query))
  {
    DefaultPrepare(query);
  }

  /** A JSON value: the parsed response payload, passed through uninterpreted. */
  datatype Json =
    | Null
    | Bool(b: bool)
    | Number(literal: string)
    | Str(s: string)
    | Arr(items: seq<Json>)
    | Obj(members: seq<(string, Json)>)

  /** The outcome of `response.json()`. */
  datatype Body = Parsed(value: Json) | Unparsable(message: string)

  /**
   * What the network gives back for one request: `fetch` rejects because the
   * server cannot be reached ("Failed to fetch") or with another message, the
   * server answers with a non-2xx status, or it answers OK.
   */
  datatype Response =
    | Unreachable
    | Thrown(message: string)
    | NotOk(status: nat, bodyText: string, statusText: string)
    | Ok(body: Body)

  const FailedToFetch := "Failed to fetch"

  /** `${status}: ${errorText || statusText}`: the body text, or the status text when the body is empty. */
  function StatusError(status: nat, bodyText: string, statusText: string): (r: string)
    ensures var n := |DecimalString(status)|;
      n + 2 <= |r| && r[..n] == DecimalString(status) && r[n..n + 2] == ": "
      && r[n + 2..] == (if bodyText == "" then statusText else bodyText)
  {
    DecimalString(status) + ": " + (if bodyText != "" then bodyText else statusText)
  }

  /** The message of the exception the probe meets for a failed response. */
  function ProbeFailure(r: Response): (m: string)
    requires !r.Ok?
    ensures m == (if r.NotOk? then "HTTP " else "") + QueryFailure(r)
  {
    match r
    case Unreachable => FailedToFetch
    case Thrown(m) => m
    case NotOk(status, bodyText, statusText) => "HTTP " + StatusError(status, bodyText, statusText)
  }

  /** The message of the exception a query meets when the response is not a parsed payload. */
  function QueryFailure(r: Response): (m: string)
    requires !(r.Ok? && r.body.Parsed?)
    ensures r.Unreachable? ==> m == FailedToFetch
    ensures r.Thrown? ==> m == r.message
    ensures r.Ok? ==> m == r.body.message
    ensures r.NotOk? ==> m == StatusError(r.status, r.bodyText, r.statusText)
  {
    match r
    case Unreachable => FailedToFetch
    case Thrown(m) => m
    case NotOk(status, bodyText, statusText) => StatusError(status, bodyText, statusText)
    case Ok(Unparsable(m)) => m
  }

  const CannotReach := "Cannot reach SurrealDB " + "on port 8001. Is it running?"
  const AuthenticationFailed := "Authentication failed. " + "Using credentials: root/root"
  const ConnectionFailedPrefix := "Connection failed: "

  /** The three messages a failed probe can leave. */
  predicate IsProbeError(e: string) {
    e == CannotReach || e == AuthenticationFailed
    || (|ConnectionFailedPrefix| <= |e| && e[..|ConnectionFailedPrefix|] == ConnectionFailedPrefix)
  }

  /**
   * The probe's catch block: "Failed to fetch" is tested first, "403" second,
   * by substring, and anything else is reported with its message.
   */
  function ClassifyProbeError(message: string): (r: string)
    ensures IsProbeError(r)
    ensures r == CannotReach <==> Contains(message, FailedToFetch)
    ensures r == AuthenticationFailed <==> !Contains(message, FailedToFetch) && Contains(message, "403")
    ensures r == ConnectionFailedPrefix + message <==> !Contains(message, FailedToFetch) && !Contains(message, "403")
  {
    var failed := ConnectionFailedPrefix + message;
    assert failed[0] != AuthenticationFailed[0] && failed[1] != CannotReach[1];
    assert CannotReach[0] != AuthenticationFailed[0];
    if Contains(message, FailedToFetch) then CannotReach
    else if Contains(message, "403") then AuthenticationFailed
    else ConnectionFailedPrefix + message
  }

  /** An unreachable server is reported as such. */
  lemma UnreachableProbeError()
    ensures ClassifyProbeError(ProbeFailure(Unreachable)) == CannotReach
  {
    ContainsAt(FailedToFetch, FailedToFetch, 0);
  }

  /** The message of a 403 probe response is classified as an authentication failure. */
  lemma Forbidden403Message(detail: string)
    requires !Contains(detail, FailedToFetch)
    ensures ClassifyProbeError("HTTP 403: " + detail) == AuthenticationFailed
  {
    var m := "HTTP 403: " + detail;
    ContainsAfterPrefix("HTTP 403: ", detail, FailedToFetch);
    assert m[5..8] == "403";
    ContainsAt(m, "403", 5);
  }

  /** A 403 answer is an authentication failure unless its text mentions "Failed to fetch". */
  lemma ForbiddenProbeError(bodyText: string, statusText: string)
    requires !Contains(if bodyText == "" then statusText else bodyText, FailedToFetch)
    ensures ClassifyProbeError(ProbeFailure(NotOk(403, bodyText, statusText))) == AuthenticationFailed
  {
    ForbiddenStatusLine(bodyText, statusText);
    Forbidden403Message(if bodyText == "" then statusText else bodyText);
  }

  /** The probe's message for a 403 answer: "HTTP 403: " and the detail. */
  lemma ForbiddenStatusLine(bodyText: string, statusText: string)
    ensures ProbeFailure(NotOk(403, bodyText, statusText))
         == "HTTP 403: " + (if bodyText == "" then statusText else bodyText)
  {
    var detail := if bodyText == "" then statusText else bodyText;
    Decimal403();
    assert StatusError(403, bodyText, statusText) == "403: " + detail;
    assert "HTTP " + ("403: " + detail) == "HTTP 403: " + detail;
  }

  /** An occurrence of `sub` in `d` is also one in `p + d`. */
  lemma ContainsInSuffix(p: string, d: string, sub: string)
    requires Contains(d, sub)
    ensures Contains(p + d, sub)
  {
    var i := ContainsWitness(d, sub);
    assert (p + d)[|p| + i..|p| + i + |sub|] == d[i..i + |sub|];
    ContainsAt(p + d, sub, |p| + i);
  }

  /**
   * Matching is on the whole message, whatever the status: a 500 whose body
   * mentions 403 reads as an authentication failure.
   */
  lemma BodyMentioning403(status: nat, bodyText: string, statusText: string)
    requires bodyText != "" && Contains(bodyText, "403") && !Contains(bodyText, FailedToFetch)
    ensures ClassifyProbeError(ProbeFailure(NotOk(status, bodyText, statusText))) == AuthenticationFailed
  {
    var p := "HTTP " + DecimalString(status) + ": ";
    assert ProbeFailure(NotOk(status, bodyText, statusText)) == p + bodyText;
    assert FailedToFetch[0] !in p;
    ContainsAfterPrefix(p, bodyText, FailedToFetch);
    ContainsInSuffix(p, bodyText, "403");
  }

  const ConnectionLost := "Connection lost"

  /**
   * The query's catch block: a message mentioning "Failed to fetch" is a lost
   * connection; any other message, a status error included, is shown verbatim.
   */
  function ClassifyQueryError(message: string): (r: string)
    ensures r == message || r == ConnectionLost
    ensures r != message ==> Contains(message, FailedToFetch)
    ensures Contains(message, FailedToFetch) ==> r == ConnectionLost
  {
    if Contains(message, FailedToFetch) then ConnectionLost else message
  }

  /** A 403 answer to a query gets no special treatment: its status line is the error. */
  lemma ForbiddenQueryError(bodyText: string, statusText: string)
    requires !Contains(if bodyText == "" then statusText else bodyText, FailedToFetch)
    ensures ClassifyQueryError(QueryFailure(NotOk(403, bodyText, statusText)))
         == "403: " + (if bodyText == "" then statusText else bodyText)
  {
    var detail := if bodyText == "" then statusText else bodyText;
    Decimal403();
    assert QueryFailure(NotOk(403, bodyText, statusText)) == "403: " + detail;
    ContainsAfterPrefix("403: ", detail, FailedToFetch);
  }

  /** The chip beside the title: connecting wins over connected. */
  function StatusLabel(connecting: bool, connected: bool): (r: string)
    ensures r == "Connecting..." <==> connecting
    ensures r == "Connected" <==> !connecting && connected
    ensures r == "Disconnected" <==> !connecting && !connected
  {
    if connecting then "Connecting..." else if connected then "Connected" else "Disconnected"
  }
}
