/**
 * The handler of a VPP instance running in a Docker container: its
 * identifier and metadata, command execution, console-argument selection,
 * and the cached proxy connection behind the binary API and stats.
 *
 * proxy.Connect, NewBinapiClient and NewStatsClient are network calls;
 * they are oracle functions passed in. Go's range over the container's
 * networks map visits the networks in an unspecified order, given as `order`.
 */
module DockerHandler {
  import opened Wrappers
  import opened Strings
  import opened Seqs
  import opened DockerExec

  /** The fields of docker.Container the handler reads. */
  datatype Container = Container(
    id: string,
    name: string,
    image: string,
    created: string,                // Created, as formatted with time.UnixDate
    networks: map<string, string>)  // network name -> IPAddress

  /** An open proxy.Client connection. */
  datatype ProxyConn = ProxyConn(addr: string, session: nat)

  /** The console: vppctl run through the handler with fixed leading arguments. */
  datatype CliExecutor = CliExecutor(path: string, args: seq<string>)

  type Connect = string -> Result<ProxyConn, string>

  const DockerEnv := "docker"
  const ProxyPort: nat := 9191
  const CliSocket := "/run/vpp/cli.sock"
  const Vppctl := "/usr/bin/vppctl"
  const CliTcpArgs := ["-s", "localhost:5002"]

  const MetadataKeys := {"env", "name", "container", "id", "image", "created"}

  /** getContainerName: the name without Docker's leading "/". */
  function ContainerName(c: Container): (r: string)
    ensures "/" <= c.name ==> "/" + r == c.name
    ensures !("/" <= c.name) ==> r == c.name
  {
    TrimPrefix(c.name, "/")
  }

  /** getContainerID: the short (12-character) container ID. */
  function ContainerID(c: Container): (r: string)
    ensures r <= c.id
    ensures |r| == Min(12, |c.id|)
  {
    Truncate(c.id, 12)
  }

  /** The first non-empty IP address among the networks, in visiting order; "" if none. */
  function FirstIP(networks: map<string, string>, order: seq<string>): string
  {
    if order == [] then ""
    else if order[0] in networks && networks[order[0]] != "" then networks[order[0]]
    else FirstIP(networks, order[1..])
  }

  /** FirstIP is empty exactly when every network has an empty address, and otherwise the first non-empty one. */
  lemma {:induction false} FirstIPMeaning(networks: map<string, string>, order: seq<string>)
    requires Enumerates(order, networks.Keys)
    ensures FirstIP(networks, order) == "" <==> forall n :: n in networks ==> networks[n] == ""
    ensures FirstIP(networks, order) != "" ==>
              exists i :: 0 <= i < |order| && networks[order[i]] == FirstIP(networks, order)
                          && forall j :: 0 <= j < i ==> networks[order[j]] == ""
  {
    if order != [] {
      var first := order[0];
      var rest := networks - {first};
      assert Enumerates(order[1..], rest.Keys) by {
        forall n | n in rest ensures n in order[1..] {
          var i :| 0 <= i < |order| && order[i] == n;
          assert i != 0;
          assert order[1..][i - 1] == n;
        }
      }
      FirstIPMeaning(rest, order[1..]);
      assert FirstIP(rest, order[1..]) == FirstIP(networks, order[1..]) by {
        FirstIPRestricted(networks, first, order[1..]);
      }
      if networks[first] == "" {
        if FirstIP(networks, order) != "" {
          var i :| 0 <= i < |order[1..]| && rest[order[1..][i]] == FirstIP(rest, order[1..])
                   && forall j :: 0 <= j < i ==> rest[order[1..][j]] == "";
          assert networks[order[i + 1]] == FirstIP(networks, order);
          forall j | 0 <= j < i + 1 ensures networks[order[j]] == "" {
            if j > 0 { assert order[j] == order[1..][j - 1]; }
          }
        }
      } else {
        assert networks[order[0]] == FirstIP(networks, order);
      }
    }
  }

  lemma {:induction false} FirstIPRestricted(networks: map<string, string>, gone: string, order: seq<string>)
    requires gone !in order
    ensures FirstIP(networks - {gone}, order) == FirstIP(networks, order)
  {
    if order != [] {
      FirstIPRestricted(networks, gone, order[1..]);
    }
  }

  /** The loop of connectProxy that picks the address. */
  method FirstIPAddress(networks: map<string, string>, order: seq<string>) returns (ipaddr: string)
    requires forall i :: 0 <= i < |order| ==> order[i] in networks
    ensures ipaddr == FirstIP(networks, order)
  {
    ipaddr := "";
    var i := 0;
    while i < |order|
      invariant 0 <= i <= |order|
      invariant FirstIP(networks, order) == FirstIP(networks, order[i..])
      invariant ipaddr == ""
    {
      var nw := order[i];
      if networks[nw] != "" {
        ipaddr := networks[nw];
        break;
      }
      assert order[i..][1..] == order[i + 1..];
      i := i + 1;
    }
    assert i == |order| ==> order[i..] == [];
  }

  /** The proxy address: host, then ":9191". */
  function ProxyAddress(ip: string): string
  {
    ip + ":" + Decimal(ProxyPort)
  }

  function ConnectError(err: string): string
  {
    "connecting to proxy failed: " + err
  }

  /** The `ls` probe GetCLI runs to see whether the console socket is reachable. */
  function SocketProbe(containerID: string): ExecRequest
  {
    Request(containerID, CommandLine("ls", [CliSocket]), None, None, None)
  }

  class ContainerHandler {
    /** The Docker client the handler was built with. */
    const daemon: Daemon
    const container: Container
    /** The cached connection: None until connectProxy succeeds, and again after Close. */
    var vppProxy: Option<ProxyConn>
    /** Every address proxy.Connect was called with, oldest first. */
    ghost var dials: seq<string>

    /** NewHandler */
    constructor (daemon: Daemon, container: Container)
      ensures this.daemon == daemon && this.container == container
      ensures vppProxy == None && dials == []
    {
      this.daemon := daemon;
      this.container := container;
      vppProxy := None;
      dials := [];
    }

    /** The name without its "/", a "-", then at most seven characters of the container ID. */
    function ID(): (r: string)
      ensures ContainerName(container) + "-" <= r
      ensures var short := r[|ContainerName(container)| + 1..];
              short <= container.id && |short| == Min(7, |container.id|)
    {
      ContainerName(container) + "-" + Truncate(container.id, 7)
    }

    function Metadata(): (m: map<string, string>)
      ensures m.Keys == MetadataKeys
      ensures m["name"] == m["container"] == ContainerName(container)
      ensures m["id"] == ContainerID(container)
      ensures m["env"] == DockerEnv
      ensures m["image"] == container.image && m["created"] == container.created
    {
      map[
        "env" := DockerEnv,
        "name" := ContainerName(container),
        "container" := ContainerName(container),
        "id" := ContainerID(container),
        "image" := container.image,
        "created" := container.created
      ]
    }

    /** Drops the cached connection; never fails. */
    method Close() returns (err: Option<string>)
      modifies this`vppProxy
      ensures vppProxy == None && err == None
    {
      vppProxy := None;
      err := None;
    }

    /** A command bound to this handler's container; nothing runs yet. */
    method Command(cmd: string, args: seq<string>) returns (c: Command)
      ensures fresh(c)
      ensures c.daemon == daemon && c.containerID == container.id
      ensures c.cmd == cmd && c.args == args
      ensures c.stdin == None && c.stdout == None && c.stderr == None
    {
      c := new Command(daemon, container.id, cmd, args);
    }

    /** Runs a command capturing stdout and stderr; a failure carries the captured stderr. */
    method ExecCmd(cmd: string, args: seq<string>) returns (out: string, err: Option<string>)
      ensures var req := Request(container.id, CommandLine(cmd, args), None, Some(StdoutBuffer), Some(StderrBuffer));
              var r := Exec(daemon(req), req);
              out == r.stdout && err == (if r.err.None? then None else Some(PodExecError(r.err.value, r.stderr)))
    {
      var c := Command(cmd, args);
      ghost var ran;
      out, err, ran := c.Output();
    }

    /**
     * The console: vppctl through the container, told to use the TCP
     * console exactly when the `ls` of the CLI socket fails. Never fails.
     */
    method GetCLI() returns (cli: CliExecutor, err: Option<string>)
      ensures err == None && cli.path == Vppctl
      ensures cli.args == (if Exec(daemon(SocketProbe(container.id)), SocketProbe(container.id)).err.Some?
                           then CliTcpArgs else [])
    {
      var args: seq<string> := [];
      var probe := Command("ls", [CliSocket]);
      var probeErr, report := probe.Run();
      if probeErr.Some? {
        args := args + ["-s", "localhost:5002"];
      }
      return CliExecutor(Vppctl, args), None;
    }

    /**
     * The effect of connectProxy: nothing when already connected; otherwise
     * one call of proxy.Connect with the first non-empty network address,
     * whose outcome decides the cache and the error.
     */
    twostate predicate ConnectStep(order: seq<string>, connect: Connect, new err: Option<string>)
      reads this
    {
      if old(vppProxy).Some? then
        err == None && vppProxy == old(vppProxy) && dials == old(dials)
      else
        var addr := ProxyAddress(FirstIP(container.networks, order));
        && dials == old(dials) + [addr]
        && match connect(addr)
           case Err(e) => err == Some(ConnectError(e)) && vppProxy == None
           case Ok(c) => err == None && vppProxy == Some(c)
    }

    method ConnectProxy(order: seq<string>, connect: Connect) returns (err: Option<string>)
      requires Enumerates(order, container.networks.Keys)
      modifies this`vppProxy, this`dials
      ensures ConnectStep(order, connect, err)
    {
      if vppProxy.Some? {
        return None;
      }
      var ipaddr := FirstIPAddress(container.networks, order);
      var addr := ipaddr + ":" + Decimal(ProxyPort);
      dials := dials + [addr];
      match connect(addr)
      case Err(e) =>
        return Some(ConnectError(e));
      case Ok(c) =>
        vppProxy := Some(c);
        return None;
    }

    /** The binary API over the cached connection; a connect error is returned as is. */
    method GetAPI<Channel>(order: seq<string>, connect: Connect, newBinapi: ProxyConn -> Result<Channel, string>)
      returns (r: Result<Channel, string>)
      requires Enumerates(order, container.networks.Keys)
      modifies this`vppProxy, this`dials
      ensures exists err :: ConnectStep(order, connect, err)
                            && (err.Some? ==> r == Err(err.value))
                            && (err.None? ==> vppProxy.Some? && r == newBinapi(vppProxy.value))
    {
      var err := ConnectProxy(order, connect);
      if err.Some? {
        return Err(err.value);
      }
      r := newBinapi(vppProxy.value);
    }

    /** The stats provider over the same cached connection. */
    method GetStats<Stats>(order: seq<string>, connect: Connect, newStats: ProxyConn -> Result<Stats, string>)
      returns (r: Result<Stats, string>)
      requires Enumerates(order, container.networks.Keys)
      modifies this`vppProxy, this`dials
      ensures exists err :: ConnectStep(order, connect, err)
                            && (err.Some? ==> r == Err(err.value))
                            && (err.None? ==> vppProxy.Some? && r == newStats(vppProxy.value))
    {
      var err := ConnectProxy(order, connect);
      if err.Some? {
        return Err(err.value);
      }
      r := newStats(vppProxy.value);
    }
  }

  /** Two handlers of same-named containers have different IDs when their seven-character ID prefixes differ. */
  lemma IDsDistinguishContainers(h1: ContainerHandler, h2: ContainerHandler)
    requires h1.container.name == h2.container.name
    requires Truncate(h1.container.id, 7) != Truncate(h2.container.id, 7)
    ensures h1.ID() != h2.ID()
  {
  }
}
