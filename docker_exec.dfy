/**
 * The Docker command executor: a one-shot command with stream fields,
 * `Output`, `Run`, and the create/start/inspect exec sequence.
 *
 * The Docker daemon is an oracle: for each exec request it says how the
 * three calls CreateExec, StartExec and InspectExec turn out and what the
 * remote command writes to its attached output streams. Byte slices are
 * modelled as strings, one character per byte.
 */
module DockerExec {
  import opened Wrappers
  import opened Strings

  /** docker.CreateExecOptions, reduced to the fields the executor sets from its inputs. */
  datatype ExecRequest = ExecRequest(
    container: string,
    cmd: seq<string>,
    attachStdin: bool,
    attachStdout: bool,
    attachStderr: bool)

  /** How the daemon answers the three calls of one exec. */
  datatype ExecOutcome = ExecOutcome(
    create: Result<string, string>,  // the exec ID, or CreateExec's error
    start: Option<string>,           // StartExec's error
    inspect: Result<int, string>,    // the exit code, or InspectExec's error
    stdout: string,                  // what the command writes to stdout while StartExec runs
    stderr: string)                  // what it writes to stderr

  type Daemon = ExecRequest -> ExecOutcome

  datatype Step = CreateExec(request: ExecRequest) | StartExec(execID: string) | InspectExec(execID: string)

  /** The daemon calls made, the error returned, and what reached the attached stdout and stderr writers. */
  datatype ExecReport = ExecReport(steps: seq<Step>, err: Option<string>, stdout: string, stderr: string)

  /** io.Reader supplied by a caller. */
  datatype Reader = Reader(id: nat)

  /** io.Writer: one supplied by a caller, or one of the buffers Output allocates. */
  datatype Writer = CallerWriter(id: nat) | StdoutBuffer | StderrBuffer

  const StdoutAlreadySet := "stdout already set"

  const ExitCodePrefix := "docker exec command failed (exit code "

  function ExitCodeError(code: int): string
  {
    ExitCodePrefix + Decimal(code) + ")"
  }

  /** The error Output returns when it captured stderr itself. */
  function PodExecError(err: string, stderr: string): string
  {
    "pod exec " + err + ": " + stderr
  }

  /** The command string `Run` hands to the shell. */
  function CommandLine(cmd: string, args: seq<string>): string
  {
    cmd + " " + Join(args, " ")
  }

  /**
   * Splitting the command string on spaces gives the command and its
   * arguments back when none holds a space; with no arguments a trailing
   * space remains, which splits off as an empty word.
   */
  lemma CommandLineSplits(cmd: string, args: seq<string>)
    requires ' ' !in cmd
    requires forall i :: 0 <= i < |args| ==> ' ' !in args[i]
    ensures Split(CommandLine(cmd, args), ' ') == [cmd] + (if args == [] then [""] else args)
  {
    var words := [cmd] + (if args == [] then [""] else args);
    assert words[1..] == (if args == [] then [""] else args);
    assert Join(words, " ") == CommandLine(cmd, args);
    SplitJoin(words, ' ');
  }

  /** The create-options containerExec builds: `sh -c command`, streams attached when present. */
  function Request(containerID: string, command: string,
                   stdin: Option<Reader>, stdout: Option<Writer>, stderr: Option<Writer>): ExecRequest
  {
    ExecRequest(containerID, ["sh", "-c", command], stdin.Some?, stdout.Some?, stderr.Some?)
  }

  /** The full sequence of calls for an exec whose creation returned `id`. */
  function Protocol(req: ExecRequest, id: string): seq<Step>
  {
    [CreateExec(req), StartExec(id), InspectExec(id)]
  }

  /** What one exec does: create, start, inspect, stopping at the first failure. */
  function Exec(o: ExecOutcome, req: ExecRequest): (r: ExecReport)
    ensures o.create.Ok? ==> r.steps <= Protocol(req, o.create.value)
    ensures o.create.Err? ==> r.steps == [CreateExec(req)] && r.err == Some(o.create.error)
    ensures r.err.None? <==> o.create.Ok? && o.start.None? && o.inspect == Ok(0)
    ensures |r.steps| == 2 ==> r.err == o.start
    ensures o.create.Ok? && o.start.Some? ==> r.steps == Protocol(req, o.create.value)[..2] && r.err == o.start
    ensures o.create.Ok? && o.start.None? ==> r.steps == Protocol(req, o.create.value)
    ensures o.create.Ok? && o.start.None? && o.inspect.Ok? && o.inspect.value != 0 ==>
              r.err == Some(ExitCodeError(o.inspect.value))
    ensures |r.steps| == 3 && o.inspect.Err? ==> r.err == Some(o.inspect.error)
    ensures o.create.Ok? ==>
              r.stdout == (if req.attachStdout then o.stdout else "")
              && r.stderr == (if req.attachStderr then o.stderr else "")
    ensures r.stdout != "" ==> req.attachStdout && |r.steps| >= 2
    ensures r.stderr != "" ==> req.attachStderr && |r.steps| >= 2
  {
    match o.create
    case Err(e) =>
      ExecReport([CreateExec(req)], Some(e), "", "")
    case Ok(id) =>
      var out := if req.attachStdout then o.stdout else "";
      var errOut := if req.attachStderr then o.stderr else "";
      if o.start.Some? then
        ExecReport([CreateExec(req), StartExec(id)], o.start, out, errOut)
      else
        var steps := [CreateExec(req), StartExec(id), InspectExec(id)];
        match o.inspect
        case Err(e) => ExecReport(steps, Some(e), out, errOut)
        case Ok(code) => ExecReport(steps, if code != 0 then Some(ExitCodeError(code)) else None, out, errOut)
  }

  /** A non-zero exit code is reported by an error from which the code can be read back. */
  lemma ExitCodeReported(o: ExecOutcome, req: ExecRequest)
    requires o.create.Ok? && o.start.None? && o.inspect.Ok? && o.inspect.value != 0
    ensures Exec(o, req).err.Some?
    ensures var msg := Exec(o, req).err.value;
            ExitCodePrefix <= msg && |msg| > |ExitCodePrefix|
            && ParseDecimal(msg[|ExitCodePrefix|..|msg| - 1]) == o.inspect.value
  {
    var code := o.inspect.value;
    var msg := ExitCodeError(code);
    assert msg[|ExitCodePrefix|..|msg| - 1] == Decimal(code);
    ParseDecimalOfDecimal(code);
  }

  /** Distinct exit codes give distinct errors. */
  lemma ExitCodeErrorInjective(c1: int, c2: int)
    requires ExitCodeError(c1) == ExitCodeError(c2)
    ensures c1 == c2
  {
    var m1, m2 := ExitCodeError(c1), ExitCodeError(c2);
    assert m1[|ExitCodePrefix|..|m1| - 1] == Decimal(c1);
    assert m2[|ExitCodePrefix|..|m2| - 1] == Decimal(c2);
    ParseDecimalOfDecimal(c1);
    ParseDecimalOfDecimal(c2);
  }

  /** containerExec: the three daemon calls in order, returning at the first error. */
  method ContainerExec(daemon: Daemon, containerID: string, command: string,
                       stdin: Option<Reader>, stdout: Option<Writer>, stderr: Option<Writer>)
    returns (report: ExecReport)
    ensures var req := Request(containerID, command, stdin, stdout, stderr);
            report == Exec(daemon(req), req)
  {
    var req := ExecRequest(containerID, ["sh", "-c", command], stdin.Some?, stdout.Some?, stderr.Some?);
    var o := daemon(req);
    var steps := [CreateExec(req)];
    if o.create.Err? {
      return ExecReport(steps, Some(o.create.error), "", "");
    }
    var id := o.create.value;
    var out := if stdout.Some? then o.stdout else "";
    var errOut := if stderr.Some? then o.stderr else "";
    steps := steps + [StartExec(id)];
    if o.start.Some? {
      return ExecReport(steps, o.start, out, errOut);
    }
    steps := steps + [InspectExec(id)];
    if o.inspect.Err? {
      return ExecReport(steps, Some(o.inspect.error), out, errOut);
    } else if o.inspect.value != 0 {
      return ExecReport(steps, Some(ExitCodeError(o.inspect.value)), out, errOut);
    }
    return ExecReport(steps, None, out, errOut);
  }

  /** The executor's `command`: a one-shot command bound to one container. */
  class Command {
    var cmd: string
    var args: seq<string>
    var stdin: Option<Reader>
    var stdout: Option<Writer>
    var stderr: Option<Writer>
    /** The handler's Docker client and its container's ID, which is all `Run` takes from the handler. */
    const daemon: Daemon
    const containerID: string

    constructor (daemon: Daemon, containerID: string, cmd: string, args: seq<string>)
      ensures this.daemon == daemon && this.containerID == containerID
      ensures this.cmd == cmd && this.args == args
      ensures stdin == None && stdout == None && stderr == None
    {
      this.daemon := daemon;
      this.containerID := containerID;
      this.cmd := cmd;
      this.args := args;
      stdin, stdout, stderr := None, None, None;
    }

    /** Binds stdin, or unbinds it when given nil (None). */
    method SetStdin(r: Option<Reader>) returns (c: Command)
      modifies this`stdin
      ensures c == this && stdin == r
    {
      stdin := r;
      c := this;
    }

    /** Binds stdout, or unbinds it when given nil (None). */
    method SetStdout(w: Option<Writer>) returns (c: Command)
      modifies this`stdout
      ensures c == this && stdout == w
    {
      stdout := w;
      c := this;
    }

    /** Binds stderr, or unbinds it when given nil (None). */
    method SetStderr(w: Option<Writer>) returns (c: Command)
      modifies this`stderr
      ensures c == this && stderr == w
    {
      stderr := w;
      c := this;
    }

    /** Runs `cmd args...` in the container through the shell; `report` is what the exec did. */
    method Run() returns (err: Option<string>, report: ExecReport)
      ensures var req := Request(containerID, CommandLine(cmd, args), stdin, stdout, stderr);
              report == Exec(daemon(req), req)
      ensures err == report.err
    {
      var command := cmd + " " + Join(args, " ");
      report := ContainerExec(daemon, containerID, command, stdin, stdout, stderr);
      err := report.err;
    }

    /**
     * Runs the command capturing stdout, and stderr too unless the caller
     * bound one. Refuses, running nothing, when stdout is already bound.
     * `ran` is the exec performed, if any.
     */
    method Output() returns (out: string, err: Option<string>, ghost ran: Option<ExecReport>)
      modifies this`stdout, this`stderr
      ensures old(stdout).Some? ==>
                out == "" && err == Some(StdoutAlreadySet) && ran == None
                && stdout == old(stdout) && stderr == old(stderr)
      ensures old(stdout).None? ==>
                && stdout == Some(StdoutBuffer)
                && stderr == (if old(stderr).None? then Some(StderrBuffer) else old(stderr))
                && var req := Request(containerID, CommandLine(cmd, args), stdin, stdout, stderr);
                   ran == Some(Exec(daemon(req), req))
      ensures ran.Some? ==> out == ran.value.stdout
      ensures ran.Some? ==> err == (if ran.value.err.None? then None
                                    else if old(stderr).None? then Some(PodExecError(ran.value.err.value, ran.value.stderr))
                                    else ran.value.err)
    {
      if stdout.Some? {
        return "", Some(StdoutAlreadySet), None;
      }
      stdout := Some(StdoutBuffer);
      var captureErr := stderr.None?;
      if captureErr {
        stderr := Some(StderrBuffer);
      }
      var report;
      err, report := Run();
      ran := Some(report);
      if err.Some? && captureErr {
        err := Some(PodExecError(err.value, report.stderr));
      }
      out := report.stdout;
    }
  }
}
