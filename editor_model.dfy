/**
 * The query editor's operations as functions from the component's state to
 * its next state. Each step function is the specification of the class
 * method of the same operation in QueryEditorComponent.
 */
module EditorModel {
  import opened Wrappers
  import opened Text
  import opened Connection

  /**
   * The component's state variables, plus `sent`: the requests the component
   * has put on the wire, oldest first.
   */
  datatype State = State(
    query: string,
    result: Json,
    loading: bool,
    error: Option<string>,
    executionTime: Option<int>,
    connected: bool,
    connecting: bool,
    sent: seq<Request>)

  const InitialQuery := "SELECT * FROM users;"

  /** The state right after mounting, before the mount-time probe. */
  const Initial := State(InitialQuery, Null, false, None, None, false, false, [])

  /** The queries offered as chips above the text field. */
  const ExampleQueries: seq<string> := [
    "SELECT * FROM users;",
    "CREATE users SET " + "name = \"John Doe\", age = 30;",
    "UPDATE users SET age = 31 " + "WHERE name = \"John Doe\";",
    "DELETE users WHERE name = \"John Doe\";",
    "INFO FOR DB;"
  ]

  const PleaseEnterQuery := "Please enter a query"
  const NotConnectedMessage := "Not connected. Reconnecting..."

  /** The request a prepared operation puts on the wire: none when preparing it threw. */
  function Sent(prepared: Result<Request, string>): (r: seq<Request>)
    ensures |r| <= 1
    ensures r != [] <==> prepared.Success?
    ensures r != [] ==> r[0] == prepared.value
  {
    if prepared.Success? then [prepared.value] else []
  }

  /** The fields a probe never touches. */
  predicate EditorFieldsKept(s: State, t: State) {
    t.query == s.query && t.result == s.result && t.loading == s.loading
    && t.executionTime == s.executionTime
  }

  /**
   * `connectToDatabase` up to `await fetch`. While a probe is in flight it does
   * nothing; otherwise it raises `connecting` and sends the probe, or, when
   * preparing the probe threw, runs the catch and finally blocks at once.
   */
  function StartProbeStep(s: State, settings: Settings): (t: State)
    ensures s.connecting ==> t == s
    ensures EditorFieldsKept(s, t)
    ensures !s.connecting ==> t.sent == s.sent + Sent(PrepareProbe(settings))
    ensures !s.connecting ==> (t.connecting <==> PrepareProbe(settings).Success?)
    ensures !s.connecting && t.connecting ==> t.connected == s.connected && t.error == s.error
    ensures !s.connecting && !t.connecting ==>
      !t.connected && t.error == Some(ClassifyProbeError(PrepareProbe(settings).error))
  {
    if s.connecting then s
    else match PrepareProbe(settings)
      case Failure(m) => s.(connected := false, error := Some(ClassifyProbeError(m)))
      case Success(request) => s.(connecting := true, sent := s.sent + [request])
  }

  /** The rest of `connectToDatabase` once the response is in: success, catch, then finally. */
  function FinishProbeStep(s: State, response: Response): (t: State)
    ensures EditorFieldsKept(s, t) && t.sent == s.sent
    ensures !t.connecting
    ensures t.connected <==> response.Ok?
    ensures t.connected ==> t.error == None
    ensures !t.connected ==> t.error.Some? && IsProbeError(t.error.value)
    ensures !response.Ok? ==> t.error == Some(ClassifyProbeError(ProbeFailure(response)))
  {
    if response.Ok? then s.(connected := true, error := None, connecting := false)
    else s.(connected := false, error := Some(ClassifyProbeError(ProbeFailure(response))), connecting := false)
  }

  /** A whole `connectToDatabase` call whose request, if any, gets `response`. */
  function ProbeStep(s: State, settings: Settings, response: Response): (t: State)
    ensures s.connecting ==> t == s
    ensures EditorFieldsKept(s, t)
    ensures !s.connecting ==> !t.connecting
    ensures !s.connecting ==> t.sent == s.sent + Sent(PrepareProbe(settings))
    ensures !s.connecting ==> (t.connected <==> PrepareProbe(settings).Success? && response.Ok?)
    ensures !s.connecting ==> (t.error == None <==> t.connected)
    ensures !s.connecting && !t.connected ==> IsProbeError(t.error.value)
    ensures !s.connecting ==> (t.error ==
      if PrepareProbe(settings).Failure? then Some(ClassifyProbeError(PrepareProbe(settings).error))
      else if response.Ok? then None
      else Some(ClassifyProbeError(ProbeFailure(response))))
  {
    var started := StartProbeStep(s, settings);
    if !s.connecting && started.connecting then FinishProbeStep(started, response) else started
  }

  /** The interval callback: probe only when neither connected nor connecting. */
  function TickStep(s: State, settings: Settings, response: Response): (t: State)
    ensures s.connected || s.connecting ==> t == s
    ensures !s.connected && !s.connecting ==>
      EditorFieldsKept(s, t) && !t.connecting
      && t.sent == s.sent + Sent(PrepareProbe(settings))
      && (t.connected <==> PrepareProbe(settings).Success? && response.Ok?)
    ensures !s.connected && !s.connecting ==> t == ProbeStep(s, settings, response)
  {
    if !s.connected && !s.connecting then ProbeStep(s, settings, response) else s
  }

  /** The tick sends a probe only while the status chip reads "Disconnected". */
  lemma TickProbesOnlyWhenDisconnected(s: State, settings: Settings, response: Response)
    ensures |TickStep(s, settings, response).sent| > |s.sent|
        ==> StatusLabel(s.connecting, s.connected) == "Disconnected"
    ensures StatusLabel(s.connecting, s.connected) == "Disconnected" && PrepareProbe(settings).Success?
        ==> TickStep(s, settings, response).sent == s.sent + [PrepareProbe(settings).value]
  {
  }

  /** The query succeeds: the request was prepared and answered OK with a JSON body. */
  predicate QuerySucceeds(settings: Settings, query: string, response: Response) {
    PrepareQuery(settings, query).Success? && response.Ok? && response.body.Parsed?
  }

  /** The message of the exception a failed query meets. */
  function QueryFailureMessage(settings: Settings, query: string, response: Response): string
    requires !QuerySucceeds(settings, query, response)
  {
    match PrepareQuery(settings, query)
    case Failure(m) => m
    case Success(_) => QueryFailure(response)
  }

  /**
   * `executeQuery` from `setLoading(true)` on: clear the error and the result,
   * send the query, then record the payload and the elapsed time, or the error.
   * `executionTime` is not reset on the way in, so a failure keeps the old one.
   */
  function RunQueryStep(s: State, settings: Settings, response: Response, startTime: nat, endTime: nat): (t: State)
    ensures t.query == s.query && t.connecting == s.connecting && !t.loading
    ensures t.sent == s.sent + Sent(PrepareQuery(settings, s.query))
    ensures QuerySucceeds(settings, s.query, response) ==>
      t.result == response.body.value && t.executionTime == Some(endTime - startTime)
      && t.error == None && t.connected == s.connected
    ensures !QuerySucceeds(settings, s.query, response) ==>
      var m := QueryFailureMessage(settings, s.query, response);
      t.result == Null && t.executionTime == s.executionTime
      && t.error == Some(ClassifyQueryError(m))
      && t.connected == (s.connected && !Contains(m, FailedToFetch))
  {
    var cleared := s.(loading := true, error := None, result := Null);
    match PrepareQuery(settings, s.query)
    case Failure(m) => QueryFailed(cleared, m)
    case Success(request) =>
      AwaitQuery(cleared.(sent := cleared.sent + [request]), response, startTime, endTime)
  }

  /**
   * From `await fetch` on: record payload and timing and clear loading, or run
   * the catch and finally blocks with the message the try block threw.
   */
  function AwaitQuery(waiting: State, response: Response, startTime: nat, endTime: nat): (t: State)
    ensures response.Ok? && response.body.Parsed? ==>
      t.result == response.body.value && t.executionTime == Some(endTime - startTime) && !t.loading
      && t.query == waiting.query && t.error == waiting.error && t.connected == waiting.connected
      && t.connecting == waiting.connecting && t.sent == waiting.sent
    ensures !(response.Ok? && response.body.Parsed?) ==> t == QueryFailed(waiting, QueryFailure(response))
  {
    if response.Ok? && response.body.Parsed? then
      waiting.(executionTime := Some(endTime - startTime), result := response.body.value, loading := false)
    else QueryFailed(waiting, QueryFailure(response))
  }

  /** The query's catch and finally blocks. */
  function QueryFailed(s: State, message: string): (t: State)
    ensures t.error == Some(ClassifyQueryError(message)) && !t.loading
    ensures t.connected == (s.connected && !Contains(message, FailedToFetch))
    ensures t.query == s.query && t.result == s.result && t.executionTime == s.executionTime
    ensures t.connecting == s.connecting && t.sent == s.sent
  {
    if Contains(message, FailedToFetch) then s.(error := Some(ConnectionLost), connected := false, loading := false)
    else s.(error := Some(message), loading := false)
  }

  /**
   * `executeQuery` as written. A blank query only sets the validation error.
   * A disconnected editor sets "Not connected. Reconnecting...", probes once
   * and returns: the test after the probe reads the `connected` the handler
   * captured, which is still false. A connected editor runs the query.
   */
  function ExecuteStep(s: State, settings: Settings, probeResponse: Response, response: Response,
                       startTime: nat, endTime: nat): (t: State)
    ensures t.query == s.query && s.sent <= t.sent && |t.sent| <= |s.sent| + 1
    ensures IsBlank(s.query) ==> t == s.(error := Some(PleaseEnterQuery))
    ensures !IsBlank(s.query) && !s.connected ==>
      EditorFieldsKept(s, t)
      && t.sent == s.sent + (if s.connecting then [] else Sent(PrepareProbe(settings)))
      && (s.connecting ==> t == s.(error := Some(NotConnectedMessage)))
    ensures !IsBlank(s.query) && !s.connected ==>
      t == ProbeStep(s.(error := Some(NotConnectedMessage)), settings, probeResponse)
    ensures !IsBlank(s.query) && s.connected ==>
      t == RunQueryStep(s, settings, response, startTime, endTime)
  {
    if IsBlank(s.query) then s.(error := Some(PleaseEnterQuery))
    else if !s.connected then ProbeStep(s.(error := Some(NotConnectedMessage)), settings, probeResponse)
    else RunQueryStep(s, settings, response, startTime, endTime)
  }

  /** `clearEditor`: empty the text and forget the result, the error and the timing. */
  function ClearStep(s: State): (t: State)
    ensures t.query == "" && t.result == Null && t.error == None && t.executionTime == None
    ensures t.loading == s.loading && t.connected == s.connected && t.connecting == s.connecting
    ensures t.sent == s.sent
  {
    s.(query := "", result := Null, error := None, executionTime := None)
  }

  /** `loadExample`: replace the query text, nothing else. */
  function LoadExampleStep(s: State, example: string): (t: State)
    ensures t.query == example && t == s.(query := example)
  {
    s.(query := example)
  }

  /** A string with a character other than whitespace is not blank. */
  lemma NotBlankAt(q: string, i: nat)
    requires i < |q| && !IsJsWhitespace(q[i])
    ensures !IsBlank(q)
  {
  }

  /** Every example query passes the blank-query check. */
  lemma ExamplesAreNotBlank()
    ensures forall i :: 0 <= i < |ExampleQueries| ==> !IsBlank(ExampleQueries[i])
  {
    forall i | 0 <= i < |ExampleQueries|
      ensures !IsBlank(ExampleQueries[i])
    {
      var q := ExampleQueries[i];
      assert q[0] in {'S', 'C', 'U', 'D', 'I'};
      NotBlankAt(q, 0);
    }
  }

  /** After clearing, executing only reports the empty query and sends nothing. */
  lemma ClearThenExecute(s: State, settings: Settings, probeResponse: Response, response: Response,
                         startTime: nat, endTime: nat)
    ensures var t := ExecuteStep(ClearStep(s), settings, probeResponse, response, startTime, endTime);
      t.error == Some(PleaseEnterQuery) && t.sent == s.sent && t.result == Null
  {
  }

  /** A successful query of a connected editor records the elapsed time, never negative with a monotonic clock. */
  lemma ExecutionTimeNonNegative(s: State, settings: Settings, probeResponse: Response, response: Response,
                                 startTime: nat, endTime: nat)
    requires startTime <= endTime
    requires !IsBlank(s.query) && s.connected && QuerySucceeds(settings, s.query, response)
    ensures var t := ExecuteStep(s, settings, probeResponse, response, startTime, endTime);
      t.executionTime == Some(endTime - startTime) && t.executionTime.value >= 0
  {
  }

  /** With nothing stored, the mount-time probe against a healthy server connects. */
  lemma HealthyProbe()
    ensures PrepareProbe(NotStored).Success?
    ensures ProbeStep(Initial, NotStored, Ok(Parsed(Null)))
         == Initial.(connected := true, sent := [PrepareProbe(NotStored).value])
  {
    DefaultProbeRequest();
  }

  /**
   * Once connected, as after HealthyProbe, the initial query is sent in the test namespace and
   * database, and its payload and timing are recorded.
   */
  lemma HealthyQuery(s: State, payload: Json, startTime: nat, endTime: nat)
    requires s.connected && s.query == InitialQuery
    ensures var t := ExecuteStep(s, NotStored, Unreachable, Ok(Parsed(payload)), startTime, endTime);
      t.result == payload && t.executionTime == Some(endTime - startTime) && t.error == None && t.connected
      && t.sent == s.sent + [Request("http://localhost:8001/sql", "root:root", "USE NS test; USE DB test; " + InitialQuery)]
  {
    var query := Request("http://localhost:8001/sql", "root:root", "USE NS test; USE DB test; " + InitialQuery);
    DefaultQueryRequest(InitialQuery);
    assert !IsBlank(InitialQuery) by {
      NotBlankAt(InitialQuery, 0);
    }
    assert QuerySucceeds(NotStored, s.query, Ok(Parsed(payload)));
    var t := ExecuteStep(s, NotStored, Unreachable, Ok(Parsed(payload)), startTime, endTime);
    assert t == RunQueryStep(s, NotStored, Ok(Parsed(payload)), startTime, endTime);
    assert Sent(PrepareQuery(NotStored, s.query)) == [query];
  }

  /**
   * The unreachable scenario: from mount, the probe reports that the server
   * cannot be reached, and executing then only sends the implicit probe.
   */
  lemma UnreachableScenario(response: Response, startTime: nat, endTime: nat)
    ensures PrepareProbe(NotStored).Success?
    ensures var probe := PrepareProbe(NotStored).value;
      ExecuteStep(ProbeStep(Initial, NotStored, Unreachable), NotStored, Unreachable, response, startTime, endTime)
      == Initial.(error := Some(CannotReach), sent := [probe, probe])
  {
    UnreachableMount();
    NotBlankAt(InitialQuery, 0);
    UnreachableRetry(ProbeStep(Initial, NotStored, Unreachable), response, startTime, endTime);
  }

  /** The mount-time probe against a server that is down. */
  lemma UnreachableMount()
    ensures PrepareProbe(NotStored).Success?
    ensures ProbeStep(Initial, NotStored, Unreachable)
         == Initial.(error := Some(CannotReach), sent := [PrepareProbe(NotStored).value])
  {
    DefaultProbeRequest();
    UnreachableProbeError();
  }

  /** Executing while the server stays down only repeats the probe, whatever the query's answer. */
  lemma UnreachableRetry(s: State, response: Response, startTime: nat, endTime: nat)
    requires !IsBlank(s.query) && !s.connected && !s.connecting
    requires PrepareProbe(NotStored).Success?
    ensures ExecuteStep(s, NotStored, Unreachable, response, startTime, endTime)
         == s.(error := Some(CannotReach), sent := s.sent + [PrepareProbe(NotStored).value])
  {
    UnreachableProbeError();
  }

  /**
   * The code as written never queries after reconnecting: the probe succeeds,
   * the editor is connected, the error is cleared, and the only request sent
   * is the probe.
   */
  lemma ReconnectDropsQuery(s: State, settings: Settings, response: Response, startTime: nat, endTime: nat)
    requires !IsBlank(s.query) && !s.connected && !s.connecting
    requires PrepareProbe(settings).Success?
    ensures var t := ExecuteStep(s, settings, Ok(Parsed(Null)), response, startTime, endTime);
      t.connected && t.error == None && t.result == s.result && t.executionTime == s.executionTime
      && t.sent == s.sent + [PrepareProbe(settings).value]
  {
  }

  /**
   * `executeQuery` as evidently intended: after the implicit probe, run the
   * query when the probe connected.
   */
  function ExecuteReconnectingStep(s: State, settings: Settings, probeResponse: Response, response: Response,
                                   startTime: nat, endTime: nat): (t: State)
    ensures t.query == s.query && s.sent <= t.sent
    ensures IsBlank(s.query) || s.connected ==>
      t == ExecuteStep(s, settings, probeResponse, response, startTime, endTime)
  {
    var first := ExecuteStep(s, settings, probeResponse, response, startTime, endTime);
    if !IsBlank(s.query) && !s.connected && first.connected
    then RunQueryStep(first, settings, response, startTime, endTime)
    else first
  }

  /**
   * With the correction a query is sent after a successful reconnect, and only
   * then: a failed probe still abandons the query.
   */
  lemma ReconnectThenQueries(s: State, settings: Settings, probeResponse: Response, response: Response,
                             startTime: nat, endTime: nat)
    requires !IsBlank(s.query) && !s.connected && !s.connecting
    requires PrepareProbe(settings).Success?
    ensures var t := ExecuteReconnectingStep(s, settings, probeResponse, response, startTime, endTime);
      (probeResponse.Ok? ==> t.sent == s.sent + [PrepareProbe(settings).value] + [PrepareQuery(settings, s.query).value]
                             && (QuerySucceeds(settings, s.query, response) ==> t.result == response.body.value))
      && (!probeResponse.Ok? ==> t.sent == s.sent + [PrepareProbe(settings).value] && !t.connected)
  {
    if probeResponse.Ok? {
      ReconnectedThenQueries(s, settings, probeResponse, response, startTime, endTime);
    } else {
      FailedReconnectAbandons(s, settings, probeResponse, response, startTime, endTime);
    }
  }

  /** After a successful probe the corrected execute runs the query on the reconnected state. */
  lemma ReconnectedThenQueries(s: State, settings: Settings, probeResponse: Response, response: Response,
                               startTime: nat, endTime: nat)
    requires !IsBlank(s.query) && !s.connected && !s.connecting
    requires PrepareProbe(settings).Success? && probeResponse.Ok?
    ensures var t := ExecuteReconnectingStep(s, settings, probeResponse, response, startTime, endTime);
      t.sent == s.sent + [PrepareProbe(settings).value] + [PrepareQuery(settings, s.query).value]
      && (QuerySucceeds(settings, s.query, response) ==> t.result == response.body.value)
  {
    var first := s.(error := None, connected := true, sent := s.sent + [PrepareProbe(settings).value]);
    ReconnectedState(s, settings, probeResponse, response, startTime, endTime);
    QueryAppendsRequest(first, settings, response, startTime, endTime);
  }

  /** After a failed probe the corrected execute, like the original, sends nothing more. */
  lemma FailedReconnectAbandons(s: State, settings: Settings, probeResponse: Response, response: Response,
                                startTime: nat, endTime: nat)
    requires !IsBlank(s.query) && !s.connected && !s.connecting
    requires PrepareProbe(settings).Success? && !probeResponse.Ok?
    ensures var t := ExecuteReconnectingStep(s, settings, probeResponse, response, startTime, endTime);
      t.sent == s.sent + [PrepareProbe(settings).value] && !t.connected
  {
    assert ExecuteStep(s, settings, probeResponse, response, startTime, endTime)
        == ProbeStep(s.(error := Some(NotConnectedMessage)), settings, probeResponse);
  }

  /** The corrected execute, after a successful probe, is the query run on the probed state. */
  lemma ReconnectedState(s: State, settings: Settings, probeResponse: Response, response: Response,
                         startTime: nat, endTime: nat)
    requires !IsBlank(s.query) && !s.connected && !s.connecting
    requires PrepareProbe(settings).Success? && probeResponse.Ok?
    ensures ExecuteReconnectingStep(s, settings, probeResponse, response, startTime, endTime)
         == RunQueryStep(s.(error := None, connected := true, sent := s.sent + [PrepareProbe(settings).value]),
                         settings, response, startTime, endTime)
  {
    assert ExecuteStep(s, settings, probeResponse, response, startTime, endTime)
        == ProbeStep(s.(error := Some(NotConnectedMessage)), settings, probeResponse);
  }

  /** A prepared query is appended to the requests sent, after the earlier ones. */
  lemma QueryAppendsRequest(s: State, settings: Settings, response: Response, startTime: nat, endTime: nat)
    requires PrepareQuery(settings, s.query).Success?
    ensures RunQueryStep(s, settings, response, startTime, endTime).sent
         == s.sent + [PrepareQuery(settings, s.query).value]
  {
    assert Sent(PrepareQuery(settings, s.query)) == [PrepareQuery(settings, s.query).value];
  }
}
