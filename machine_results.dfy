/**
  The translations `Machine.Status` and `Machine.Uri` apply to what the
  executor returns, and the two operations as a whole: build the argument
  line, run it, translate the response.
 */
module MachineResults {

  import opened Wrappers
  import MachineArgs

  /**
    What one run of `docker-machine` gives back to the facade: the
    envelope's success flag and its text payload.
   */
  datatype Response = Response(success: bool, data: string)

  /** The classification `Status` produces. */
  datatype RunningState = Running | Stopped | Unknown

  /** The text `docker-machine url` prints for a machine that is not running. */
  const NOT_RUNNING: string := "Host is not running"

  /**
    A failed run is `Unknown`; a successful one is `Stopped` or `Running` only
    when the text is exactly that word (ordinal, no trimming), else `Unknown`.
   */
  function Status(resp: Response): (s: RunningState)
    ensures !resp.success ==> s == Unknown
    ensures s == Stopped <==> resp.success && resp.data == "Stopped"
    ensures s == Running <==> resp.success && resp.data == "Running"
  {
    if !resp.success then Unknown
    else match resp.data
      case "Stopped" => Stopped
      case "Running" => Running
      case _ => Unknown
  }

  /**
    `None` (the C# `null`) exactly when the text begins with the not-running
    message, whatever the success flag; otherwise the text, unchanged, that
    the URI is built from.
   */
  function Uri(resp: Response): (u: Option<string>)
    ensures u == None <==> NOT_RUNNING <= resp.data
    ensures u != None ==> u == Some(resp.data)
  {
    if NOT_RUNNING <= resp.data then None else Some(resp.data)
  }

  /** `Machine.Status(machine)`, with the executor as the function `run`. */
  function StatusOf(machine: string, run: string -> Response): (s: RunningState)
    ensures s != Unknown ==> run("status " + machine).success
    ensures s == Running <==> run("status " + machine) == Response(true, "Running")
    ensures s == Stopped <==> run("status " + machine) == Response(true, "Stopped")
  {
    Status(run(MachineArgs.StatusArgs(machine)))
  }

  /** `Machine.Uri(machine)`, with the executor as the function `run`. */
  function UriOf(machine: string, run: string -> Response): (u: Option<string>)
    ensures u == None <==> NOT_RUNNING <= run("url " + machine).data
    ensures u != None ==> u == Some(run("url " + machine).data)
  {
    Uri(run(MachineArgs.UrlArgs(machine)))
  }

  /** `Status` inverts the words `docker-machine status` prints for the two known states. */
  lemma StatusWordRoundTrip(s: RunningState)
    requires s != Unknown
    ensures Status(Response(true, if s == Running then "Running" else "Stopped")) == s
  {
  }

  /** No case folding and no trimming: near misses are `Unknown`. */
  lemma StatusExactMatch()
    ensures Status(Response(true, "running")) == Unknown
    ensures Status(Response(true, "Running\n")) == Unknown
    ensures Status(Response(true, " Stopped")) == Unknown
    ensures Status(Response(false, "Running")) == Unknown
  {
  }

  /** The message followed by anything (a full stop, a newline, details) is still "not running". */
  lemma UriNotRunningWithSuffix(success: bool, rest: string)
    ensures Uri(Response(success, NOT_RUNNING + rest)) == None
  {
  }

  /** A `tcp://` address never looks like the not-running message. */
  lemma UriTcpAddress(success: bool, address: string)
    ensures Uri(Response(success, "tcp://" + address)) == Some("tcp://" + address)
  {
    var d := "tcp://" + address;
    assert d[0] == 't' && NOT_RUNNING[0] == 'H';
  }

  /** The success flag plays no part in the `Uri` translation. */
  lemma UriIgnoresSuccess(data: string)
    ensures Uri(Response(true, data)) == Uri(Response(false, data))
  {
  }

}
