# vpp-probe discovery and control core, modelled in Dafny

This project models the discovery-and-control core of vpp-probe. vpp-probe is a tool that finds running VPP
(packet-processing engine) instances and controls them. The model covers four parts:

- **Discovery client** (`client.dfy`, module `ProbeClient`). It registers providers and rejects duplicate names.
  A discovery run queries every provider, keeps the handlers that pass the liveness probe, and replaces the
  client's instance list with the result. Teardown closes every handler.
- **Docker command executor** (`docker_exec.dfy`, module `DockerExec`). It models the one-shot `command`: its
  stream setters, `Output`, `Run`, and the create/start/inspect sequence of `containerExec`.
- **Docker instance handler** (`docker_handler.dfy`, module `DockerHandler`). It covers the identifier and
  metadata of a container, `ExecCmd`, the choice of console arguments in `GetCLI`, and the cached proxy
  connection behind `GetAPI` and `GetStats`.
- **Output helpers** (`cmd_util.dfy`, module `CmdUtil`). These are the colour tag of `colorize` and
  `mapKeyValString`.

Three support modules hold shared pieces:

- `wrappers.dfy` holds `Option` and `Result`.
- `strings.dfy` holds `strings.TrimPrefix`, truncation, `strings.Join`, `strings.Split` and `%d`, with their
  round trips.
- `seqs.dfy` holds `FlatMap`, the concatenation of per-element chunks, with its membership and permutation
  lemmas.

Calls into code outside the core are oracle parameters:

- `Provider.Query`, the liveness probe `vpp.NewInstance`, and a handler's `Close`.
- The Docker daemon's `CreateExec`/`StartExec`/`InspectExec`. The handler keeps these as `daemon`, a function
  from an exec request to its outcome.
- `proxy.Connect`, `NewBinapiClient` and `NewStatsClient`.
- The colour library's tables.

Go's unordered iteration also becomes a parameter, an order that the caller supplies:

- Over a map (a container's networks, the map passed to `mapKeyValString`) it is an enumeration of the keys.
- Over the goroutines' results on the discovery channel it is `arrival`, a permutation of the providers.

Behaviour of the code worth noting:

- `Output` fails with "stdout already set".
- A handler's `Close` only drops the cached connection. It marks nothing closed.
- `connectProxy` has no guard against concurrent callers.
- `Client.DiscoverInstances` keeps a provider's chunk only when it is non-empty. This makes no difference to
  the result.

## Model

| member | source | states |
|---|---|---|
| ProbeClient.Client.constructor | client/client.go:19-27 | a new client has no providers and no instances |
| ProbeClient.Client.AddProvider | client/client.go:52-67 | fails exactly when a registered provider has the same name, naming the first such provider and leaving the list unchanged; otherwise appends the provider at the end; keeps names unique |
| ProbeClient.Client.DiscoverInstances | client/client.go:71-103 | with no providers: the "no providers available" error, no query, instances untouched; otherwise queries each provider once, replaces instances by the providers' chunks concatenated in arrival order (even when empty), and fails with "no instances discovered" exactly when that is empty |
| ProbeClient.DiscoveredExactly | client/client.go:78-97 | an instance is in a run's result exactly when some registered provider's query succeeded, returned its handler, and the handler passed the probe; failed queries contribute nothing |
| ProbeClient.DiscoveryOrderIrrelevant | client/client.go:76-95 | any two arrival orders of the providers' results give the same instances up to permutation |
| ProbeClient.DiscoverProviderInstances | client/client.go:107-131 | a failed query returns no instances and its error; otherwise a nil error and, in handler order, the instances of the handlers whose probe succeeded |
| ProbeClient.LiveMembers | client/client.go:119-128 | an instance is kept exactly when its handler was returned and passed the probe |
| ProbeClient.Client.Close | client/client.go:30-38 | closes every instance's handler, in order, even after a failure; logs exactly the failing ones; always returns nil |
| Strings.TrimPrefix | providers/docker/handler.go:56-58 | removes the prefix once when present, else returns the string unchanged |
| Strings.TrimPrefixOfPrefixed | providers/docker/handler.go:56-58 | trimming a prefix that was prepended gives the original string back |
| Strings.Truncate | providers/docker/handler.go:36-39 | the result is a prefix of the string, of length min(n, length) |
| Strings.SplitJoin | cmd/util.go:95 | splitting a join on a separator no part contains gives the parts back |
| Strings.Join | providers/docker/exec.go:61 | the parts joined by the separator: empty for no parts, otherwise starting with the first part; its partner SplitJoin reads the parts back |
| Strings.Decimal | providers/docker/exec.go:97 | the `%d` rendering: a '-' exactly for a negative number, then decimal digits with no leading zero unless the number is 0; its partner ParseDecimalOfDecimal reads the number back |
| Strings.ParseDecimalOfDecimal | providers/docker/exec.go:96-97 | the `%d` rendering of an integer can be read back to the same integer |
| DockerHandler.ContainerName | providers/docker/handler.go:56-58 | the container name with exactly one leading "/" removed, if there is one |
| DockerHandler.ContainerID | providers/docker/handler.go:60-65 | the first min(12, length) characters of the container ID, always a prefix of it |
| DockerHandler.ContainerHandler.constructor | providers/docker/handler.go:28-33 | a new handler has no cached connection |
| DockerHandler.ContainerHandler.ID | providers/docker/handler.go:35-41 | the container name, then "-", then a prefix of the container ID of length min(7, length) |
| DockerHandler.IDsDistinguishContainers | providers/docker/handler.go:35-41 | same-named containers whose IDs differ in the first seven characters get different identifiers |
| DockerHandler.ContainerHandler.Metadata | providers/docker/handler.go:43-54 | exactly the keys env, name, container, id, image, created; name and container equal the trimmed name; id is the 12-character ID |
| DockerHandler.ContainerHandler.Close | providers/docker/handler.go:67-71 | drops the cached connection and returns nil |
| DockerHandler.ContainerHandler.Command | providers/docker/handler.go:96-102 | a fresh command bound to this container, with no streams bound |
| DockerHandler.ContainerHandler.ExecCmd | providers/docker/handler.go:73-77 | runs the command with stdout and stderr captured; returns stdout, and on failure the error carrying the captured stderr |
| DockerHandler.ContainerHandler.GetCLI | providers/docker/handler.go:79-94 | vppctl gets "-s localhost:5002" exactly when the `ls /run/vpp/cli.sock` exec fails, no arguments otherwise; never an error |
| DockerHandler.FirstIPMeaning | providers/docker/handler.go:127-133 | the address chosen is empty exactly when every network's address is empty, and otherwise the first non-empty one in visiting order |
| DockerHandler.FirstIPAddress | providers/docker/handler.go:127-133 | the loop returns the first non-empty network address in visiting order |
| DockerHandler.ContainerHandler.ConnectProxy | providers/docker/handler.go:120-145 | once connected, a no-op success with no dial; otherwise dials exactly once, at the first non-empty address followed by ":9191"; on failure returns "connecting to proxy failed: …" and stays unconnected, on success caches the connection |
| DockerHandler.ContainerHandler.GetAPI | providers/docker/handler.go:104-110 | connects as ConnectProxy does; a connect error is returned without deriving a client, otherwise the binary API client derived from the cached connection |
| DockerHandler.ContainerHandler.GetStats | providers/docker/handler.go:112-118 | as GetAPI, deriving the stats client from the same cached connection |
| DockerExec.Exec | providers/docker/exec.go:65-100 | the daemon calls are a prefix of create, start, inspect on the created exec; a failing create stops at once with its error; a failing start stops before inspect with its own error; after a successful start inspect runs, and its error or the exit-code error for a non-zero code is returned; success exactly when every call succeeds and the exit code is 0; once the exec is created, each attached stream receives the command's output, whatever the error, and an unattached one receives nothing |
| DockerExec.ContainerExec | providers/docker/exec.go:65-100 | runs `sh -c command`, attaching each stream exactly when it is present, and does what Exec describes |
| DockerExec.ExitCodeReported | providers/docker/exec.go:96-97 | a non-zero exit code yields an error from which the code can be read back |
| DockerExec.ExitCodeErrorInjective | providers/docker/exec.go:96-97 | distinct exit codes give distinct errors |
| DockerExec.CommandLineSplits | providers/docker/exec.go:61 | the command string is the command and its arguments joined by spaces; with no arguments it ends in a space |
| DockerExec.Command.constructor | providers/docker/exec.go:15-24 | a new command holds its command, arguments and container, with no streams bound |
| DockerExec.Command.SetStdin | providers/docker/exec.go:26-29 | binds stdin, or unbinds it when given nil; changes no other field and returns the same command |
| DockerExec.Command.SetStdout | providers/docker/exec.go:31-34 | binds stdout, or unbinds it when given nil; changes no other field and returns the same command |
| DockerExec.Command.SetStderr | providers/docker/exec.go:36-39 | binds stderr, or unbinds it when given nil; changes no other field and returns the same command |
| DockerExec.Command.Run | providers/docker/exec.go:60-63 | execs `cmd + " " + join(args, " ")` in the container with the bound streams and returns that exec's error |
| DockerExec.Command.Output | providers/docker/exec.go:41-58 | with stdout bound, fails with "stdout already set" and runs nothing; otherwise binds a stdout buffer, and a stderr buffer only if none was bound; returns the captured stdout even on error; wraps the error with the captured stderr only when it captured stderr itself |
| CmdUtil.Colorize | cmd/util.go:27-80 | the plain text when coloured output is off or there is no colour; otherwise the text wrapped in the tag built from the last foreground and the last option found among the colour's codes |
| CmdUtil.LastFoundMeaning | cmd/util.go:37-65 | the name kept is empty exactly when no code was found in the table, and otherwise the name found for the last code found |
| CmdUtil.Tag | cmd/util.go:67-77 | the tag is empty exactly when neither a foreground nor an option was found |
| CmdUtil.TagRoundTrip | cmd/util.go:67-77 | a tag built from names without ';' reads back to exactly those foreground and option names |
| CmdUtil.MapKeyValString | cmd/util.go:86-96 | the space-join of the non-empty f(k, v), in the order the entries are visited |
| CmdUtil.PartsMeaning | cmd/util.go:86-96 | at most one part per entry; a string is a part exactly when it is non-empty and f of some entry |
| CmdUtil.EmptyPartsGiveEmptyString | cmd/util.go:89-95 | an empty map, or an f that is always empty, yields "" |
| CmdUtil.PartsOrderIrrelevant | cmd/util.go:88 | two visiting orders of the map give the same parts up to permutation |
| CmdUtil.MapKeyValStringSplits | cmd/util.go:95 | when no part contains a space, splitting the result on spaces gives the parts back |

## Left out

- Goroutines and the channel in `Client.DiscoverInstances`. They are modelled as a sequential loop over the results in arrival order, which may be any permutation of the providers. Races and blocking are not modelled.
- `Provider.Query`, `vpp.NewInstance`, a handler's `Close`, the Docker daemon calls, `proxy.Connect`, `NewBinapiClient` and `NewStatsClient` are network or foreign calls. They are oracle functions, so the same request always gets the same answer.
- The `panic` on a nil provider in `AddProvider` is not modelled. A provider here is a value and cannot be nil.
- `NewClient`'s options. The `Opt` type is not part of this model, so the constructor takes no options.
- `GetProviders` and `Instances` are plain field reads.
- The variadic `queryParams` of both `DiscoverInstances` are not modelled. The `query` oracle stands for `Query(queryParams...)` with the parameters of one run.
- Logging with logrus, everywhere.
- `Created.Format(time.UnixDate)` is not modelled. The creation time is an opaque string.
- The value of `providers.Docker` is assumed to be "docker". The providers package is not part of this model.
- The `vppcli.ExecutorFunc` closure and `exec.Wrap` in `GetCLI`. Only the vppctl path and its arguments are modelled.
- The colour library's table lookups are left out. They are lookups from a code to its name, with "" meaning not listed. `color.WrapTag` is left abstract as `Wrapped(text, tag)`. `fmt.Sprint(v)` is the text passed in.
- The `init` that reads the terminal and `NOCOLOR` is left out. Coloured output is a parameter.
- `prefixWriter`, `protoFieldsToMap` (protobuf reflection) and `cmd/version.go` are not part of this model.
- Byte slices are modelled as strings with one character per byte. No encoding is involved.
- Concurrent calls to `connectProxy` on one handler are not modelled. The code has no guard against them.
