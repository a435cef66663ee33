/** The capture session, NetworkCaptureClient: navigate, wait, fetch the
    network requests and coerce them to a list; and save a list of records
    as JSONL. Remote calls are oracles handed to the retry loop; whether a
    tool is available is a boolean input. */
module CaptureSession {
  import opened Wrappers
  import opened Json
  import opened Jsonl
  import opened ToolResult
  import opened Retry
  import opened OutputPath

  /** The `retries` every call of the session uses. */
  const DefaultRetries := 2

  // ---------------------------------------------------------------- wait strategy

  /** What the session does to wait after navigating: sleep locally, or call
      the semantic wait tool with a state and a timeout in milliseconds. */
  datatype WaitAction =
    | LocalSleep(seconds: real)
    | CallWaitFor(tool: string, state: string, timeoutMs: int)

  /** Python `int(x)`: truncation toward zero. */
  function TruncateToInt(x: real): (n: int)
    ensures 0.0 <= x ==> n as real <= x < n as real + 1.0
    ensures x < 0.0 ==> n as real - 1.0 < x <= n as real
  {
    if x >= 0.0 then x.Floor else -((-x).Floor)
  }

  /** The wait-mode branch of capture_network_requests. */
  function ChooseWait(waitForAvailable: bool, waitMode: string, waitSeconds: real): (a: WaitAction)
    ensures a.CallWaitFor? <==> waitForAvailable && waitMode == "networkidle"
    ensures a.CallWaitFor? ==>
      && a.tool == "browser_wait_for" && a.state == "networkidle"
      && a.timeoutMs == TruncateToInt(waitSeconds * 1000.0)
    ensures a.LocalSleep? ==> a.seconds == waitSeconds
  {
    if waitForAvailable then
      if waitMode == "sleep" then LocalSleep(waitSeconds)
      else if waitMode == "networkidle" then CallWaitFor("browser_wait_for", "networkidle", TruncateToInt(waitSeconds * 1000.0))
      else LocalSleep(waitSeconds)
    else LocalSleep(waitSeconds)
  }

  // ---------------------------------------------------------------- coercion to a list

  /** The normalisation tail of capture_network_requests. */
  function CoerceToList(payload: JSON): (records: seq<JSON>)
    ensures IsRequestsEnvelope(payload) ==> records == payload.fields["requests"].items
    ensures !IsRequestsEnvelope(payload) ==> records == LineRecords(payload)
  {
    match payload
    case JNull => []
    case JArray(items) => items
    case JObject(fields) =>
      if "requests" in fields && fields["requests"].JArray? then fields["requests"].items else [payload]
    case _ => [WrapValue(payload)]
  }

  /** A dict whose "requests" is a list. */
  predicate IsRequestsEnvelope(payload: JSON) {
    payload.JObject? && "requests" in payload.fields && payload.fields["requests"].JArray?
  }

  /** An envelope {"requests": [...]} is unwrapped, not kept as one record. */
  lemma EnvelopeUnwrapped(inner: seq<JSON>, others: map<string, JSON>)
    ensures CoerceToList(JObject(others["requests" := JArray(inner)])) == inner
  {
  }

  /** Except for an envelope, coercing a payload to a list and saving the
      list writes what serializing the payload itself would: both keep the
      same records, one per line. */
  lemma CoercionAgreesWithSerializer(payload: JSON, dumps: JSON -> string)
    requires !IsRequestsEnvelope(payload)
    ensures CoerceToList(payload) == LineRecords(payload)
    ensures SerializeToJsonl(JArray(CoerceToList(payload)), dumps) == SerializeToJsonl(payload, dumps)
  {
    SerializeAsLines(payload, dumps);
    SerializeAsLines(JArray(CoerceToList(payload)), dumps);
  }

  // ---------------------------------------------------------------- the session

  /** What capture_network_requests produces: the first fatal failure among
      navigate, the semantic wait (when it is used) and the fetch, or else the
      fetched payload extracted and coerced to a list. */
  function Captured<E>(
    waitForAvailable: bool, waitMode: string, waitSeconds: real,
    navigateCalls: seq<Outcome<CallToolResult, E>>,
    waitForCalls: seq<Outcome<CallToolResult, E>>,
    fetchCalls: seq<Outcome<CallToolResult, E>>,
    loads: string -> Option<JSON>): Result<seq<JSON>, ToolError<E>>
    requires DefaultRetries < |navigateCalls| && DefaultRetries < |waitForCalls| && DefaultRetries < |fetchCalls|
  {
    var navigated := RetryOutcome("browser_navigate", navigateCalls, DefaultRetries);
    var waited := if ChooseWait(waitForAvailable, waitMode, waitSeconds).CallWaitFor?
      then RetryOutcome("browser_wait_for", waitForCalls, DefaultRetries)
      else Done(CallToolResult(None));
    var fetched := RetryOutcome("browser_network_requests", fetchCalls, DefaultRetries);
    if navigated.Failed? then Failure(navigated.error)
    else if waited.Failed? then Failure(waited.error)
    else if fetched.Failed? then Failure(fetched.error)
    else Success(CoerceToList(Extracted(Some(fetched.value), loads)))
  }

  /** capture_network_requests */
  method CaptureNetworkRequests<E>(
    waitForAvailable: bool, waitMode: string, waitSeconds: real,
    navigateCalls: seq<Outcome<CallToolResult, E>>,
    waitForCalls: seq<Outcome<CallToolResult, E>>,
    fetchCalls: seq<Outcome<CallToolResult, E>>,
    loads: string -> Option<JSON>)
    returns (r: Result<seq<JSON>, ToolError<E>>, ghost wait: WaitAction)
    requires DefaultRetries < |navigateCalls| && DefaultRetries < |waitForCalls| && DefaultRetries < |fetchCalls|
    ensures r == Captured(waitForAvailable, waitMode, waitSeconds, navigateCalls, waitForCalls, fetchCalls, loads)
    ensures wait == ChooseWait(waitForAvailable, waitMode, waitSeconds)
  {
    ghost var n: nat;
    ghost var s: seq<nat>;
    wait := ChooseWait(waitForAvailable, waitMode, waitSeconds);
    var navigated;
    navigated, n, s := CallWithRetry("browser_navigate", navigateCalls, DefaultRetries);
    if navigated.Failed? {
      return Failure(navigated.error), wait;
    }
    if waitForAvailable && waitMode == "networkidle" {
      var waited;
      waited, n, s := CallWithRetry("browser_wait_for", waitForCalls, DefaultRetries);
      if waited.Failed? {
        return Failure(waited.error), wait;
      }
    }
    var fetched;
    fetched, n, s := CallWithRetry("browser_network_requests", fetchCalls, DefaultRetries);
    if fetched.Failed? {
      return Failure(fetched.error), wait;
    }
    var networkPayload := ExtractToolResultJson(Some(fetched.value), loads);
    r := Success(CoerceToList(networkPayload));
  }

  /** A fetch answered with {"requests": [...]} in a json entry yields the
      inner list, once navigation and the wait have gone through. */
  lemma CaptureUnwrapsEnvelope<E>(
    waitMode: string, waitSeconds: real,
    navigateCalls: seq<Outcome<CallToolResult, E>>,
    waitForCalls: seq<Outcome<CallToolResult, E>>,
    fetchCalls: seq<Outcome<CallToolResult, E>>,
    inner: seq<JSON>, loads: string -> Option<JSON>)
    requires DefaultRetries < |navigateCalls| && DefaultRetries < |waitForCalls| && DefaultRetries < |fetchCalls|
    requires navigateCalls[0].Returned? && waitForCalls[0].Returned?
    requires fetchCalls[0] == Returned(CallToolResult(Some([ContentEntry(Some("json"), JObject(map["requests" := JArray(inner)]), None)])))
    ensures Captured(true, waitMode, waitSeconds, navigateCalls, waitForCalls, fetchCalls, loads) == Success(inner)
  {
    FirstSuccessWins("browser_navigate", navigateCalls, DefaultRetries, 0);
    FirstSuccessWins("browser_wait_for", waitForCalls, DefaultRetries, 0);
    FirstSuccessWins("browser_network_requests", fetchCalls, DefaultRetries, 0);
  }

  /** save_jsonl: serialise the records, best-effort create the directory
      (its failure is swallowed), then write with retry. `content` is the
      text handed to write_file. */
  method SaveJsonl<E>(
    records: seq<JSON>, outputPath: string, timestamp: string,
    createDirectoryAvailable: bool,
    createDirectoryCalls: seq<Outcome<CallToolResult, E>>,
    writeFileCalls: seq<Outcome<CallToolResult, E>>,
    dumps: JSON -> string)
    returns (r: Result<string, ToolError<E>>, ghost content: string)
    requires DefaultRetries < |createDirectoryCalls| && DefaultRetries < |writeFileCalls|
    ensures content == SerializeToJsonl(JArray(records), dumps)
    ensures r.Success? <==> RetryOutcome("write_file", writeFileCalls, DefaultRetries).Done?
    ensures r.Success? ==> r.value == ExpandOutputPath(outputPath, timestamp)
    ensures r.Failure? ==> r.error == RetryOutcome("write_file", writeFileCalls, DefaultRetries).error
  {
    ghost var n: nat;
    ghost var s: seq<nat>;
    var expandedOutputPath := ExpandOutputPath(outputPath, timestamp);
    if createDirectoryAvailable {
      var made;
      made, n, s := CallWithRetry("create_directory", createDirectoryCalls, DefaultRetries);
    }
    var jsonlBlob := SerializeToJsonl(JArray(records), dumps);
    content := jsonlBlob;
    var written;
    written, n, s := CallWithRetry("write_file", writeFileCalls, DefaultRetries);
    if written.Failed? {
      return Failure(written.error), content;
    }
    r := Success(expandedOutputPath);
  }
}
