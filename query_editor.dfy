/**
 * The QueryEditor component as an object: its state variables are fields,
 * each handler is a method that updates them in the order the handler calls
 * its setters, and each method is proved to reach the state its step
 * function in EditorModel prescribes.
 */
module QueryEditorComponent {
  import opened Wrappers
  import opened Text
  import opened Connection
  import opened EditorModel

  class QueryEditor {
    var query: string
    var result: Json
    var loading: bool
    var error: Option<string>
    var executionTime: Option<int>
    var connected: bool
    var connecting: bool
    /** The requests put on the wire so far, oldest first. */
    var sent: seq<Request>

    function Snapshot(): State
      reads this
    {
      State(query, result, loading, error, executionTime, connected, connecting, sent)
    }

    /** The initial `useState` values. */
    constructor ()
      ensures Snapshot() == Initial
    {
      query := InitialQuery;
      result := Null;
      loading := false;
      error := None;
      executionTime := None;
      connected := false;
      connecting := false;
      sent := [];
    }

    /**
     * `connectToDatabase` up to `await fetch`. Returns whether a probe request
     * went out and now awaits its response.
     */
    method BeginProbe(settings: Settings) returns (awaiting: bool)
      modifies this
      ensures Snapshot() == StartProbeStep(old(Snapshot()), settings)
      ensures awaiting <==> !old(connecting) && connecting
    {
      awaiting := false;
      if connecting {
        return;
      }
      connecting := true;
      var prepared := PrepareProbe(settings);
      match prepared {
        case Failure(m) =>
          connected := false;
          error := Some(ClassifyProbeError(m));
          connecting := false;
        case Success(request) =>
          sent := sent + [request];
          awaiting := true;
      }
    }

    /** The rest of `connectToDatabase`, when the probe's response arrives. */
    method CompleteProbe(response: Response)
      requires connecting
      modifies this
      ensures Snapshot() == FinishProbeStep(old(Snapshot()), response)
    {
      if response.Ok? {
        connected := true;
        error := None;
      } else {
        connected := false;
        error := Some(ClassifyProbeError(ProbeFailure(response)));
      }
      connecting := false;
    }

    /** A whole `connectToDatabase` call. */
    method Probe(settings: Settings, response: Response)
      modifies this
      ensures Snapshot() == ProbeStep(old(Snapshot()), settings, response)
    {
      var awaiting := BeginProbe(settings);
      if awaiting {
        CompleteProbe(response);
      }
    }

    /** The 10-second interval callback. */
    method Tick(settings: Settings, response: Response)
      modifies this
      ensures Snapshot() == TickStep(old(Snapshot()), settings, response)
    {
      if !connected && !connecting {
        Probe(settings, response);
      }
    }

    /**
     * `executeQuery`. `probeResponse` answers the implicit probe of a
     * disconnected editor, `response` the query; `startTime` and `endTime` are
     * the clock readings around the request.
     */
    method Execute(settings: Settings, probeResponse: Response, response: Response,
                   startTime: nat, endTime: nat)
      modifies this
      ensures Snapshot() == ExecuteStep(old(Snapshot()), settings, probeResponse, response, startTime, endTime)
    {
      if IsBlank(query) {
        error := Some(PleaseEnterQuery);
        return;
      }
      // The handler reads the state values of the render it was created in.
      var capturedQuery, capturedConnected := query, connected;
      if !capturedConnected {
        Reconnect(settings, probeResponse);
        if !capturedConnected {
          return;
        }
      }
      RunQuery(settings, capturedQuery, response, startTime, endTime);
    }

    /** The disconnected branch of `executeQuery`: announce the reconnect, then probe once. */
    method Reconnect(settings: Settings, probeResponse: Response)
      modifies this
      ensures Snapshot() == ProbeStep(old(Snapshot()).(error := Some(NotConnectedMessage)), settings, probeResponse)
    {
      error := Some(NotConnectedMessage);
      Probe(settings, probeResponse);
    }

    /** `executeQuery` from `setLoading(true)` to the end of its finally block. */
    method RunQuery(settings: Settings, capturedQuery: string, response: Response,
                    startTime: nat, endTime: nat)
      requires capturedQuery == query
      modifies this
      ensures Snapshot() == RunQueryStep(old(Snapshot()), settings, response, startTime, endTime)
    {
      loading := true;
      error := None;
      result := Null;
      ghost var cleared := Snapshot();
      match PrepareQuery(settings, capturedQuery) {
        case Failure(m) =>
          Fail(m);
          loading := false;
          assert Snapshot() == QueryFailed(cleared, m);
        case Success(request) =>
          Await(request, response, startTime, endTime);
          assert Snapshot() == AwaitQuery(cleared.(sent := cleared.sent + [request]), response, startTime, endTime);
      }
    }

    /** `executeQuery` from `await fetch` to the end of its finally block. */
    method Await(request: Request, response: Response, startTime: nat, endTime: nat)
      modifies this
      ensures Snapshot() == AwaitQuery(old(Snapshot()).(sent := old(sent) + [request]), response, startTime, endTime)
    {
      sent := sent + [request];
      if response.Ok? && response.body.Parsed? {
        executionTime := Some(endTime - startTime);
        result := response.body.value;
      } else {
        Fail(QueryFailure(response));
      }
      loading := false;
    }

    /** The query's catch block. */
    method Fail(message: string)
      modifies this
      ensures Snapshot() == QueryFailed(old(Snapshot()), message).(loading := old(loading))
    {
      if Contains(message, FailedToFetch) {
        error := Some(ConnectionLost);
        connected := false;
      } else {
        error := Some(message);
      }
    }

    /** `clearEditor`. */
    method ClearEditor()
      modifies this
      ensures Snapshot() == ClearStep(old(Snapshot()))
    {
      query := "";
      result := Null;
      error := None;
      executionTime := None;
    }

    /** `loadExample`. */
    method LoadExample(example: string)
      modifies this
      ensures Snapshot() == LoadExampleStep(old(Snapshot()), example)
    {
      query := example;
    }
  }
}
