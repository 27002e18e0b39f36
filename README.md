# A verified model of the macOS Docker provider's workspace lifecycle

This project models the part of the Daytona macOS provider that brings a workspace
up in a Docker container running a macOS guest:

- `CreateWorkspace` (pkg/docker/create.go) does the following, in order:
  - pulls the image;
  - builds the host port bindings, scanning for the first free web-UI port from
    8006 and, on a local target, asking for an ephemeral toolbox port;
  - creates and starts the container, then polls it until it runs;
  - waits for the guest to boot and opens an SSH session;
  - runs the bootstrap over that session: six setup commands, one `export` line
    per workspace environment variable, and a final reload of `~/.zshrc`.

  The first failure ends the operation.
- `GetContainerCreateConfig` (pkg/docker/create.go) builds the container's
  configuration: image, labels, environment list, exposed ports, entrypoint and
  stop timeout.
- `StartWorkspace` (pkg/docker/start.go) restarts a stopped container and waits
  for its guest. It leaves a running container alone. In both cases it then
  launches the Daytona agent over SSH and only logs a failure of that command.

Modules:

- `Errors`: `%w`-wrapped errors and their message text.
- `Ports`: the UI-port scan, the decimal rendering of host ports and the
  binding table.
- `MapOrder`: Go's map iteration, as an explicit visiting order.
- `Config`: the container and host configurations.
- `Trace`: the external calls, recorded in order.
- `Bootstrap`: the fail-fast command sequence.
- `Create` and `Start`: the two operations.

The container runtime, the SSH client, the command executor, the port probe and
the ephemeral allocator are not modelled. Each operation takes what they answer
as a parameter: `CreateOracles` and `StartOracles`, where the n-th inspect or
command reply is scripted. Each operation returns its outcome together with the
sequence of calls it made.

Each operation has two parts:

- a reference definition as a function: `CreateRun`, `ProvisionRun`,
  `LaunchRun`, `PollRun`, `FailFast` and `StartRun`;
- an imperative method that follows the source statement by statement. Its
  `ensures` ties its result to that function.

The properties are proved as lemmas about the reference definitions.

Facts about the code that the model states and that a reader might not expect:

- `CreateWorkspace` runs six setup commands. One of them is
  `echo >> /Users/daytona/.zprofile`.
- `CreateWorkspace` closes its SSH session with a deferred `Close`.
  `StartWorkspace` never closes the session it opens, and
  `Start.StartSucceedsIff` states that no close happens.
- In `StartWorkspace`, a failure of the agent command is only logged, but a
  failure to open the SSH session is returned.
- Three errors are returned without a context of their own:
  - the image pull in `CreateWorkspace`;
  - the boot wait in `StartWorkspace`;
  - the SSH session in `StartWorkspace`.
- Nothing keeps the host ports of the bindings distinct. `Ports.UiPortCanMeetSshHostPort`
  shows that the UI port lands on 10022, the SSH binding's host port, when
  8006 to 10021 are busy and 10022 is free.

## Model

| member | source | states |
|---|---|---|
| Errors.WrappedMessageNamesContext | pkg/docker/create.go:105-107 | The text of an error wrapped with `%w` begins with its context, so the failed stage can be read off the front of the message. |
| Ports.Wrap16 | pkg/docker/create.go:53 | Go's `uint16` conversion is the identity on 0..65535. |
| Ports.DecimalString | pkg/docker/create.go:60 | The `%d` rendering of a port is non-empty and all digits, with no leading zero. |
| Ports.ParseDecimalRoundTrip | pkg/docker/create.go:60 | A port rendered with `%d` reads back as the same number. |
| Ports.FirstFree | pkg/docker/create.go:51-64 | Reference scan: its result is reported free and every port before it busy. It finds nothing only when every port from the start is busy. |
| Ports.LeastFreeIsFirstFree | pkg/docker/create.go:51-64 | The least free port at or above 8006 is what the reference scan returns. |
| Ports.ScanUiPort | pkg/docker/create.go:51-64 | The scan loop ends on the least port at or above 8006 that the probe reports free: every port from 8006 below it was reported busy. |
| Ports.ScanUiPortAsWritten | pkg/docker/create.go:51-64 | The scan as written, with an `int` counter and a `uint16` probe, ends on the least counter whose 16-bit wrap is reported free. |
| Ports.WrappedScanRecordsNonPort | pkg/docker/create.go:51-64 | When every port from 8006 to 65535 is busy, whatever the scan as written ends on is a counter above 65535, and the binding records that counter, which reads back as no port. With port 0 free the counter is 65536. |
| Ports.WrappedScanAgreesWhenPortFree | pkg/docker/create.go:51-64 | When some port from 8006 to 65535 is free, the scan as written and the corrected scan agree. |
| Ports.PortBindingTable | pkg/docker/create.go:37-79 | The table's keys are exactly `22/tcp`, `2222/tcp` and `8006/tcp`, plus `2280/tcp` iff there is a toolbox port. `22/tcp` maps to 0.0.0.0:10022 and `2222/tcp` to 0.0.0.0:2222. The UI and toolbox entries read back as the UI port and the toolbox port. |
| Ports.BuildPortBindings | pkg/docker/create.go:37-79 | Building the map in place yields the binding table for the least free UI port and the toolbox port above. |
| Ports.UiPortCanMeetSshHostPort | pkg/docker/create.go:37-64 | When 8006..10021 are busy and 10022 is free, the UI binding equals the SSH binding `0.0.0.0:10022`: host ports can collide. |
| MapOrder.EnumerationExists | pkg/docker/create.go:190 | Every map has an iteration order, so taking one as a parameter excludes no input. |
| MapOrder.EnumerationVisitsEachKeyOnce | pkg/docker/create.go:190 | A `range` over a map visits each key exactly once and nothing else. |
| MapOrder.EnumerationLength | pkg/docker/create.go:190 | A `range` over a map runs once per key. |
| MapOrder.EnumerationsArePermutations | pkg/docker/create.go:190 | Any two iteration orders of one map are permutations of each other. |
| MapOrder.RenderEntries | pkg/docker/create.go:190-192 | The entry a loop appends at position j is built from the j-th key visited. |
| MapOrder.RenderPermutation | pkg/docker/create.go:190-192 | Loops over two permutations of the keys append the same multiset of entries. |
| MapOrder.RenderOrderIndependent | pkg/docker/create.go:190-192 | What a loop over the map appends is, as a multiset, independent of the iteration order. |
| MapOrder.RenderCountsVisits | pkg/docker/create.go:190-192 | When distinct keys give distinct entries, each key's entry is appended as often as the key is visited. |
| MapOrder.RenderOncePerKey | pkg/docker/create.go:190-192 | Over an iteration order, when distinct keys give distinct entries, each key's entry is appended exactly once. |
| Config.EnvList | pkg/docker/create.go:187-192 | The environment list starts with the fixed `ARGUMENTS=` entry. Then comes one `K=V` per visited variable, in visiting order. Its length is 1 + the number of variables. |
| Config.Labels | pkg/docker/create.go:194-202 | The labels are exactly target id, workspace id and repository URL with the workspace's values, plus `daytona.toolbox.api.hostPort` iff there is a toolbox port, reading back as that port. |
| Config.GetContainerCreateConfig | pkg/docker/create.go:186-228 | Hostname is the workspace id. Image `dockurr/macos:latest`, user `root`, entrypoint `tini -s /run/entry.sh` and stop timeout 120 are fixed, and stdout and stderr are attached. It carries the labels above and the environment list above. `22/tcp` and `2222/tcp` are always exposed, `2280/tcp` iff there is a toolbox port. |
| Config.EveryEnvVarIsPassed | pkg/docker/create.go:190-192 | Every workspace variable appears in the environment as its `K=V` entry. |
| Config.ConfigOrderIndependent | pkg/docker/create.go:186-228 | Two iteration orders give configurations equal except for the order of the environment entries after the first, and those lists are permutations of each other. |
| Bootstrap.BootstrapStepsShape | pkg/docker/create.go:152-181 | The bootstrap has 7 + (number of variables) steps: the six setup steps, one export per visited variable, then the final `source ~/.zshrc`. |
| Bootstrap.FirstFailure | pkg/docker/create.go:161-181 | The first failing command: all before it pass, and it fails unless it is the end. |
| Bootstrap.FailFastStopsAtFirstFailure | pkg/docker/create.go:161-181 | Fail-fast execution issues exactly the steps up to and including the first failing one, and reports that failure in that step's context. If none fails it issues all and succeeds. |
| Bootstrap.FailFastFailsAt | pkg/docker/create.go:161-181 | If step k is the first to fail, steps 0..k are issued and step k's error is returned in its context. |
| Bootstrap.RunBootstrap | pkg/docker/create.go:161-181 | The three command loops return and issue exactly what fail-fast execution of the bootstrap steps does. |
| Bootstrap.RunCommandLoops | pkg/docker/create.go:161-181 | Over any step list shaped like the bootstrap, the loops agree with fail-fast execution. |
| Bootstrap.SetupFailureStopsBootstrap | pkg/docker/create.go:161-166 | If setup command k is the first to fail, exactly setup commands 0..k have run, and no export or reload has. The error is "failed to execute command " + that command, wrapping the cause. |
| Bootstrap.ExportFailureNamesKey | pkg/docker/create.go:170-176 | If an export is the first command to fail, the setup commands and the exports before it have run, and the final reload has not. The error's message begins "failed to set " + that key. |
| Bootstrap.BootstrapSucceedsIffAllPass | pkg/docker/create.go:161-183 | The bootstrap succeeds iff each of its 7 + (number of variables) commands does. It then has issued every step once, in order. |
| Bootstrap.ExportStepOncePerKey | pkg/docker/create.go:170-176 | Each variable gets exactly one `echo 'export K="V"' >> ~/.zshrc` step, whatever the order. |
| Bootstrap.BootstrapOrderIndependent | pkg/docker/create.go:152-181 | Two iteration orders give the same setup steps, the same length and the same multiset of steps. |
| Create.FirstStop | pkg/docker/create.go:115-126 | The poll stops at the first inspect reply that is an error or a running container. |
| Create.PollRepeatsUntilRunning | pkg/docker/create.go:114-126 | The poll inspects the container k+1 times, k being the first stopping reply. It succeeds iff that reply is a running container, and otherwise returns the inspect error wrapped in "failed to inspect container when creating project". |
| Create.PollUntilRunning | pkg/docker/create.go:114-126 | The polling loop makes exactly those inspect calls and returns that outcome. |
| Create.UiPortOf | pkg/docker/create.go:51-64 | The UI port of a run is the least free port at or above 8006. |
| Create.RequestCalls | pkg/docker/create.go:66-104 | Requesting the container issues no command: the ephemeral-port request on a local target only, then the creation. |
| Create.RequestContainer | pkg/docker/create.go:35-104 | Building the bindings and creating the container makes exactly those calls. The creation carries the configuration and host configuration for the scanned UI port and toolbox port. |
| Create.CreateWorkspace | pkg/docker/create.go:26-184 | A failed pull is returned unwrapped after the pull alone. Otherwise the run is exactly the reference definition of pull, request, start, poll, boot wait, SSH, bootstrap and close. |
| Create.Provision | pkg/docker/create.go:35-183 | After the pull, the run is the request then the launch. A creation error is wrapped in "failed to create container". |
| Create.Launch | pkg/docker/create.go:109-183 | From the start on, the run follows `LaunchRun`. It wraps errors with "failed to start container", "failed to wait for mac to boot" and "failed to get SSH client", and closes the session after the bootstrap. |
| Create.LaunchEarlyFailureRunsNoCommand | pkg/docker/create.go:109-147 | A failure of start, poll, boot wait or SSH ends the launch with an error, before any command and before any session needs closing. |
| Create.EarlyFailureRunsNoCommand | pkg/docker/create.go:29-147 | Any failure before the bootstrap (pull, create, start, inspect, boot wait, SSH) ends the run with an error before any command runs. |
| Create.BootstrapRunsLast | pkg/docker/create.go:144-183 | Once every stage succeeds, the bootstrap runs over the session just opened, its calls are the run's only commands, the session is closed last, and the run returns the bootstrap's outcome. |
| Create.CreateSucceedsIff | pkg/docker/create.go:26-184 | The run succeeds iff every stage succeeds and every one of the 7 + (number of variables) bootstrap commands does. |
| Create.CreateCallBindsUiPort | pkg/docker/create.go:51-104 | The creation request names the container, and its UI binding reads back as the least free port at or above 8006. |
| Create.CreateCallBindsToolboxPort | pkg/docker/create.go:66-87 | The creation request binds `2280/tcp` iff the target is local and the ephemeral allocation succeeded, to that port. |
| Create.CreateCallLabelsToolboxPort | pkg/docker/create.go:200-210 | The creation request exposes `2280/tcp` and carries the toolbox label iff the target is local and the allocation succeeded. The label reads back as the port. |
| Create.ContainerRequested | pkg/docker/create.go:66-104 | After a successful pull the container is requested whether or not the ephemeral allocation failed. The run starts with the pull, the ephemeral request exactly on a local target, then the creation. |
| Start.AgentFailureLine | pkg/docker/start.go:48-51 | The log line for a failed agent command starts with "failed to execute command " and the command. It then holds the error's text and ends with a newline. |
| Start.StartWorkspace | pkg/docker/start.go:13-57 | The method returns, calls and logs exactly what the reference definition `StartRun` does. |
| Start.StartSucceedsIff | pkg/docker/start.go:13-57 | The start succeeds iff the container was running, or was started, found running and booted, and the session opens, whatever the agent command answers. It never closes the session. On failure it has run no command and logged nothing. |
| Start.InspectFailureStartsNothing | pkg/docker/start.go:15-18 | If the first inspect fails, its error is returned wrapped in "failed to inspect container when starting project", and that inspect is the only call. |
| Start.RunningContainerIsNotRestarted | pkg/docker/start.go:20-49 | A running container is never started or waited for and is inspected once. The agent command runs exactly once when the session opens. |
| Start.StoppedContainerIsStartedOnce | pkg/docker/start.go:21-29 | A stopped container is started exactly once, and inspected a second time once the start succeeds. |
| Start.StillStoppedFails | pkg/docker/start.go:26-33 | If the restarted container still does not run, the result is the unwrapped "failed to start container" after inspect, start, inspect, with no agent command. |
| Start.BootAndSshFailuresAreFatal | pkg/docker/start.go:37-46 | A boot-wait failure after a restart, or an SSH failure, is returned as it is, before any command. |
| Start.AgentFailureIsLogged | pkg/docker/start.go:48-56 | Once the session opens, the result is nil and the agent command is the last call. The log ends with "Daytona agent started". It holds one line before that iff the command failed, and that line names the command and the error. |

## Left out

- Image pulling, the registry lookup for the image, the runtime API, SSH and
  command execution are calls into code this model does not contain. Each one's
  answer is a parameter, and the model records which calls are made, in which
  order, with the arguments that vary within a run, except the one below. It
  does not record:
  - the container passed to `OpenWebUI`: the inspected `containerData` in
    `CreateWorkspace`, the re-inspected container in `StartWorkspace`. The
    call is recorded without it, because only the log output, which is not
    modelled, depends on it;
  - the registry `cr` passed to `PullImage`;
  - the `RemoteHostname` passed to `OpenWebUI`, `WaitForMacOsBoot` and
    `GetSshClient`;
  - the `IsPortAvailable` probes and the `IsLocalMacTarget` query, whose
    answers are parameters (the probe as a predicate on ports, the target
    test as a boolean).
- The `time.Sleep` pauses (1 s between polls, 15 s before the boot wait) have no
  effect on the model's results, so they are left out.
- These log lines of `CreateWorkspace` are not modelled; `StartWorkspace`'s two
  log lines are:
  - the URL hint with the host name;
  - the credentials hint;
  - the Remote Login hint;
  - "Configuring MacOS";
  - "Setting up environment variables".
- The output `ExecuteCommand` and `OpenWebUI` write to the log is not
  modelled. `OpenWebUI`, `WaitForMacOsBoot` and `GetWorkspaceContainerName`
  are foreign calls: the model records the first two as calls and takes the
  container name as a parameter.
- The `log.Error` of a failed ephemeral allocation is not modelled. The failure
  itself is: it drops the toolbox port.
- The `hostName` fallback to "localhost" only feeds a log line.
- The unused `daytonaDownloadUrl` parameter of `StartWorkspace`.
- Ports.ScanUiPort: requires that some port from 8006 to 65535 is reported free.
  The source loops forever only when the probe reports no port at all free.
  When only ports below 8006 are free, the `uint16` probe wraps and the source
  binds a counter above 65535; the Findings row below and
  `Ports.ScanUiPortAsWritten` cover that case. The corrected scan excludes both.
- Create.PollUntilRunning: requires that the scripted inspect replies contain
  one that stops the poll. The source polls forever while the container is
  created but not running.
- Create.CreateWorkspace: requires both of the above (`Terminates`). It so
  excludes the inputs on which the source polls or scans forever, and also
  those on which the source's scan wraps past 65535 and goes on to create the
  container with a host port above 65535.
- Create.CreateWorkspace: states its run for an arbitrary iteration order of the
  environment for the configuration and another for the bootstrap. Go picks
  these afresh on each `range`, and the model does not fix them.

## Findings

| source | as written | input that shows it | evidently intended | confidence | as-written member | corrected member |
|---|---|---|---|---|---|---|
| pkg/docker/create.go:51-64 | The counter is an `int` but the probe checks `uint16(uiPort)`. Past 65535 the probe wraps to port 0 while the binding records the counter itself. | A probe that reports every port from 8006 to 65535 busy and port 0 free: the scan stops at counter 65536 and binds host port "65536". | The scan is meant to settle on a real free port at or above 8006. | not executed | Ports.WrappedScanRecordsNonPort | Ports.ScanUiPort |
