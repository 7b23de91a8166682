/**
 * The k8s_get_logs tool: reads a bounded tail of one pod's logs.
 *
 * The log stream of the API server is a parameter (`LogSource`): it gives,
 * for each log request, the logs or the failure of opening or reading them.
 */
module GetLogsTool {
  import opened Wrappers
  import opened Values
  import AgentLoop

  const ToolName := "k8s_get_logs"

  /** At most this many lines are asked for; also the default. */
  const MaxTailLines := 500

  /** At most this many seconds back (15 minutes); also the default. */
  const MaxSinceSeconds := 900

  /** The pod-log request sent to the API server. */
  datatype LogRequest = LogRequest(namespace: string, pod: string, container: string, tailLines: int, sinceSeconds: int)

  /** What reading the logs gives: the stream could not be opened, could not be read, or the text. */
  datatype LogStream = StreamFailed(error: string) | ReadFailed(error: string) | Logs(text: string)

  type LogSource = LogRequest -> LogStream

  /**
   * The request for an input: namespace first, then pod, must be non-empty
   * strings; the container defaults to empty (the pod's only container);
   * the line count and the look-back window default to and are capped at
   * 500 lines and 900 seconds.
   */
  function Request(input: Input): (r: Result<LogRequest>)
    ensures RequiredString(input, "namespace").None? ==> r == Err("namespace is required")
    ensures RequiredString(input, "namespace").Some? && RequiredString(input, "pod").None? ==>
      r == Err("pod is required")
    ensures r.Ok? <==> RequiredString(input, "namespace").Some? && RequiredString(input, "pod").Some?
    ensures r.Ok? ==>
      && r.value.namespace == input["namespace"].s && r.value.pod == input["pod"].s
      && r.value.container == (if GetString(input, "container").Some? then input["container"].s else "")
      && r.value.tailLines == Capped(input, "tailLines", MaxTailLines, MaxTailLines)
      && r.value.sinceSeconds == Capped(input, "sinceSeconds", MaxSinceSeconds, MaxSinceSeconds)
  {
    match RequiredString(input, "namespace")
    case None => Err("namespace is required")
    case Some(namespace) =>
      match RequiredString(input, "pod")
      case None => Err("pod is required")
      case Some(pod) =>
        var container := match GetString(input, "container") case Some(c) => c case None => "";
        Ok(LogRequest(namespace, pod, container,
                      Capped(input, "tailLines", MaxTailLines, MaxTailLines),
                      Capped(input, "sinceSeconds", MaxSinceSeconds, MaxSinceSeconds)))
  }

  /** The tool, over the logs the cluster serves. */
  datatype GetLogs = GetLogs(source: LogSource)
  {
    /** The logs for a valid input, or the first input error, or the stream's error. */
    function Execute(input: Input): (r: Result<string>)
      ensures Request(input).Err? ==> r == Err(Request(input).error)
      ensures Request(input).Ok? ==>
        match source(Request(input).value)
        case StreamFailed(e) => r == Err("failed to get logs: " + e)
        case ReadFailed(e) => r == Err("failed to read logs: " + e)
        case Logs(t) => r == Ok(t)
    {
      match Request(input)
      case Err(e) => Err(e)
      case Ok(req) =>
        match source(req)
        case StreamFailed(e) => Err("failed to get logs: " + e)
        case ReadFailed(e) => Err("failed to read logs: " + e)
        case Logs(t) => Ok(t)
    }

    /** The tool as the agent loop runs it: output or error text. */
    function AsTool(): AgentLoop.Tool
    {
      (input: Input) =>
        match Execute(input)
        case Ok(t) => AgentLoop.Output(t)
        case Err(e) => AgentLoop.ExecError(e)
    }
  }

  /** The input that asks for exactly `req`. */
  function InputOf(req: LogRequest): Input
  {
    map["namespace" := Str(req.namespace), "pod" := Str(req.pod), "container" := Str(req.container),
        "tailLines" := Int(req.tailLines), "sinceSeconds" := Int(req.sinceSeconds)]
  }

  /**
   * Every request within the bounds can be asked for, and is sent unchanged:
   * the input parse and `InputOf` are inverse on such requests.
   */
  lemma RequestRoundTrip(req: LogRequest)
    requires req.namespace != "" && req.pod != ""
    requires req.tailLines <= MaxTailLines && req.sinceSeconds <= MaxSinceSeconds
    ensures Request(InputOf(req)) == Ok(req)
  {
    var input := InputOf(req);
    assert GetInt(input, "tailLines") == Some(req.tailLines);
    assert GetInt(input, "sinceSeconds") == Some(req.sinceSeconds);
  }

  /** An input naming only the namespace and the pod asks for the last 500 lines of the last 15 minutes. */
  lemma DefaultWindow(namespace: string, pod: string)
    requires namespace != "" && pod != ""
    ensures Request(map["namespace" := Str(namespace), "pod" := Str(pod)])
         == Ok(LogRequest(namespace, pod, "", 500, 900))
  {
    var input := map["namespace" := Str(namespace), "pod" := Str(pod)];
    assert "tailLines" !in input && "sinceSeconds" !in input && "container" !in input;
  }
}
