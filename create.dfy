/** `CreateWorkspace` (pkg/docker/create.go:26-184): pull the image, build the
    port bindings, create and start the container, poll until it runs, wait
    for the guest to boot, open an SSH session and run the bootstrap over it.
    Every stage can fail, and the first failure ends the operation. */
module Create {
  import opened Errors
  import opened Ports
  import opened MapOrder
  import opened Config
  import opened Trace
  import opened Bootstrap

  const CreateContext := "failed to create container"
  const StartContext := "failed to start container"
  const InspectContext := "failed to inspect container when creating project"
  const BootContext := "failed to wait for mac to boot"
  const SshContext := "failed to get SSH client"

  /** What the collaborators of `CreateWorkspace` answer in one run:
      `pull` for `PullImage`, `available` for `ports.IsPortAvailable`,
      `isLocal` for `IsLocalMacTarget`, `ephemeral` for
      `GetAvailableEphemeralPort`, `create` for `ContainerCreate` (the new
      container's id), `start` for `ContainerStart`, `inspects[n]` for the
      `n`-th `ContainerInspect` of the poll, `bootWait` for
      `WaitForMacOsBoot`, `ssh` for `GetSshClient` and `exec(j)` for the
      `j`-th `ExecuteCommand` on the session. */
  datatype CreateOracles = CreateOracles(
    pull: Outcome,
    available: Port -> bool,
    isLocal: bool,
    ephemeral: Result<Port>,
    create: Result<string>,
    start: Outcome,
    inspects: seq<Result<ContainerState>>,
    bootWait: Outcome,
    ssh: Outcome,
    exec: nat -> Outcome)

  // ---------------------------------------------------------------------------
  // The running-poll (pkg/docker/create.go:114-126)

  /** An inspect reply that ends the poll: an error, or a running container. */
  predicate Stops(reply: Result<ContainerState>)
  {
    reply.Err? || reply.value.running
  }

  /** Some reply ends the poll, which is what makes the unbounded loop end. */
  ghost predicate PollStops(inspects: seq<Result<ContainerState>>)
  {
    exists k :: 0 <= k < |inspects| && Stops(inspects[k])
  }

  lemma PollStopsTail(inspects: seq<Result<ContainerState>>)
    requires PollStops(inspects) && !Stops(inspects[0])
    ensures PollStops(inspects[1..])
  {
    var k :| 0 <= k < |inspects| && Stops(inspects[k]);
    assert inspects[1..][k - 1] == inspects[k];
  }

  /** The index of the reply that ends the poll. */
  function FirstStop(inspects: seq<Result<ContainerState>>): (k: nat)
    requires PollStops(inspects)
    ensures k < |inspects| && Stops(inspects[k])
    ensures forall j :: 0 <= j < k ==> !Stops(inspects[j])
    decreases |inspects|
  {
    if Stops(inspects[0]) then 0
    else
      PollStopsTail(inspects);
      1 + FirstStop(inspects[1..])
  }

  /** The poll, one inspect at a time: an error ends it wrapped in its
      context, a running container ends it successfully, anything else
      inspects again. */
  function PollRun(id: string, inspects: seq<Result<ContainerState>>): Run
    requires PollStops(inspects)
    decreases |inspects|
  {
    var call := [ContainerInspect(id)];
    match inspects[0]
    case Err(e) => Run(Fail(Wrapped(InspectContext, e)), call)
    case Ok(state) =>
      if state.running then Run(Pass, call)
      else
        PollStopsTail(inspects);
        After(call, PollRun(id, inspects[1..]))
  }

  /** The poll inspects the container once per reply up to and including the
      one that ends it, and succeeds exactly when that reply says running. */
  lemma {:induction false} PollRepeatsUntilRunning(id: string, inspects: seq<Result<ContainerState>>)
    requires PollStops(inspects)
    ensures var k := FirstStop(inspects);
      && PollRun(id, inspects).calls == Repeat(ContainerInspect(id), k + 1)
      && (PollRun(id, inspects).outcome.Pass? <==> inspects[k].Ok?)
      && (inspects[k].Err? ==> PollRun(id, inspects).outcome == Fail(Wrapped(InspectContext, inspects[k].error)))
    decreases |inspects|
  {
    if !Stops(inspects[0]) {
      PollStopsTail(inspects);
      PollRepeatsUntilRunning(id, inspects[1..]);
      var k := FirstStop(inspects[1..]);
      assert inspects[1..][k] == inspects[k + 1];
      RepeatCons(ContainerInspect(id), k + 1);
    }
  }

  lemma RepeatCons(c: Call, n: nat)
    ensures [c] + Repeat(c, n) == Repeat(c, n + 1)
  {
    assert ([c] + Repeat(c, n))[0] == c;
  }

  /** The loop of pkg/docker/create.go:115-126, with the delay between
      inspects left out. */
  method PollUntilRunning(id: string, inspects: seq<Result<ContainerState>>)
    returns (res: Outcome, calls: seq<Call>)
    requires PollStops(inspects)
    ensures calls == Repeat(ContainerInspect(id), FirstStop(inspects) + 1)
    ensures res.Pass? <==> inspects[FirstStop(inspects)].Ok?
    ensures Run(res, calls) == PollRun(id, inspects)
  {
    ghost var last := FirstStop(inspects);
    PollRepeatsUntilRunning(id, inspects);
    var n := 0;
    calls := [];
    while true
      invariant 0 <= n <= last
      invariant calls == Repeat(ContainerInspect(id), n)
      decreases last - n
    {
      var reply := inspects[n];
      calls := calls + [ContainerInspect(id)];
      if reply.Err? {
        res := Fail(Wrapped(InspectContext, reply.error));
        return;
      }
      if reply.value.running {
        res := Pass;
        return;
      }
      n := n + 1;
    }
  }

  // ---------------------------------------------------------------------------
  // The whole operation

  /** What `CreateWorkspace` requires of its collaborators for its two
      unbounded loops to end: a free port for the scan once the pull
      succeeded, and a reply that ends the poll once the container started. */
  ghost predicate Terminates(o: CreateOracles)
  {
    && (o.pull.Pass? ==> HasFreeUiPort(o.available))
    && (o.pull.Pass? && o.create.Ok? && o.start.Pass? ==> PollStops(o.inspects))
  }

  /** The UI port the scan settles on. */
  function UiPortOf(o: CreateOracles): (ui: Port)
    requires HasFreeUiPort(o.available)
    ensures IsLeastFree(o.available, ui)
  {
    var r := FirstFree(o.available, UiBase);
    assert r.Some?;
    LeastFreeIsFirstFree(o.available, r.value);
    r.value
  }

  /** The call that creates the container, with the configuration and the
      port bindings the run computed. */
  function CreateCall(ws: Workspace, name: string, configOrder: seq<string>, o: CreateOracles): Call
    requires Enumerates(configOrder, ws.envVars)
    requires HasFreeUiPort(o.available)
  {
    var toolbox := ToolboxHostPort(o.isLocal, o.ephemeral);
    ContainerCreate(name, GetContainerCreateConfig(ws, toolbox, configOrder),
                    HostConfigFor(PortBindingTable(UiPortOf(o), toolbox)))
  }

  /** The calls that obtain the container: the ephemeral-port request, on a
      local target only, and the creation request. */
  function RequestCalls(isLocal: bool, create: Call): (s: seq<Call>)
    requires create.ContainerCreate?
    ensures NoCommand(s) && CloseSsh !in s
    ensures |s| == (if isLocal then 2 else 1)
    ensures s[0] == EphemeralPort <==> isLocal
    ensures s[|s| - 1] == create
  {
    (if isLocal then [EphemeralPort] else []) + [create]
  }

  /** Every stage before the bootstrap succeeds. */
  ghost predicate ReachesBootstrap(o: CreateOracles)
    requires Terminates(o)
  {
    && o.pull.Pass? && o.create.Ok? && o.start.Pass?
    && o.inspects[FirstStop(o.inspects)].Ok?
    && o.bootWait.Pass? && o.ssh.Pass?
  }

  /** Reference definition of what happens once the container `id` exists:
      start it, poll until it runs, wait for the guest, open the session and
      run the bootstrap over it, closing the session at the end. */
  function LaunchRun(id: string, env: StringMap, exportOrder: seq<string>, o: CreateOracles): Run
    requires Enumerates(exportOrder, env)
    requires o.start.Pass? ==> PollStops(o.inspects)
  {
    var started := [ContainerStart(id)];
    if o.start.Fail? then Run(Fail(Wrapped(StartContext, o.start.error)), started)
    else
      var poll := PollRun(id, o.inspects);
      var polled := started + poll.calls;
      if poll.outcome.Fail? then Run(poll.outcome, polled)
      else
        var waited := polled + [OpenWebUI, WaitForBoot(id)];
        if o.bootWait.Fail? then Run(Fail(Wrapped(BootContext, o.bootWait.error)), waited)
        else
          var session := waited + [OpenSsh];
          if o.ssh.Fail? then Run(Fail(Wrapped(SshContext, o.ssh.error)), session)
          else
            var boot := FailFast(BootstrapSteps(env, exportOrder), o.exec, 0);
            Run(boot.outcome, session + boot.calls + [CloseSsh])
  }

  /** Reference definition of a run of `CreateWorkspace` once the image is
      pulled: request the container with `create`, then launch it. */
  function ProvisionRun(create: Call, env: StringMap, exportOrder: seq<string>, o: CreateOracles): Run
    requires create.ContainerCreate? && Enumerates(exportOrder, env)
    requires o.create.Ok? && o.start.Pass? ==> PollStops(o.inspects)
  {
    var requested := RequestCalls(o.isLocal, create);
    if o.create.Err? then Run(Fail(Wrapped(CreateContext, o.create.error)), requested)
    else After(requested, LaunchRun(o.create.value, env, exportOrder, o))
  }

  /** Reference definition of a run of `CreateWorkspace`: the calls it makes
      and what it returns. `create` is the creation request the run issues
      (`CreateCall` says what it holds); the bootstrap visits the workspace
      environment `env` in `exportOrder`. */
  function CreateRun(create: Call, env: StringMap, exportOrder: seq<string>, o: CreateOracles): Run
    requires create.ContainerCreate? && Enumerates(exportOrder, env)
    requires Terminates(o)
  {
    if o.pull.Fail? then Run(o.pull, [PullImage(Image)])
    else After([PullImage(Image)], ProvisionRun(create, env, exportOrder, o))
  }

  /** pkg/docker/create.go:26-184. The pull's error is returned as it is; the
      later stages wrap theirs. */
  method CreateWorkspace(ws: Workspace, name: string, configOrder: seq<string>, exportOrder: seq<string>,
                         o: CreateOracles)
    returns (res: Outcome, calls: seq<Call>)
    requires Enumerates(configOrder, ws.envVars) && Enumerates(exportOrder, ws.envVars)
    requires Terminates(o)
    ensures o.pull.Fail? ==> res == o.pull && calls == [PullImage(Image)]
    ensures o.pull.Pass? ==>
      Run(res, calls) == CreateRun(CreateCall(ws, name, configOrder, o), ws.envVars, exportOrder, o)
  {
    calls := [PullImage(Image)];
    if o.pull.Fail? {
      res := o.pull;
      return;
    }
    var provisionCalls;
    res, provisionCalls := Provision(ws, name, configOrder, exportOrder, o);
    calls := calls + provisionCalls;
  }

  /** pkg/docker/create.go:35-183, after the pull. */
  method Provision(ws: Workspace, name: string, configOrder: seq<string>, exportOrder: seq<string>,
                   o: CreateOracles)
    returns (res: Outcome, calls: seq<Call>)
    requires Enumerates(configOrder, ws.envVars) && Enumerates(exportOrder, ws.envVars)
    requires HasFreeUiPort(o.available)
    requires o.create.Ok? && o.start.Pass? ==> PollStops(o.inspects)
    ensures Run(res, calls) == ProvisionRun(CreateCall(ws, name, configOrder, o), ws.envVars, exportOrder, o)
  {
    calls := RequestContainer(ws, name, configOrder, o);
    if o.create.Err? {
      res := Fail(Wrapped(CreateContext, o.create.error));
      return;
    }
    var launchCalls;
    res, launchCalls := Launch(o.create.value, ws.envVars, exportOrder, o);
    calls := calls + launchCalls;
  }

  /** pkg/docker/create.go:35-104: build the port bindings in place, then
      ask the runtime to create the container with them. The calls are the
      ephemeral-port request, on a local target only, and the creation. */
  method RequestContainer(ws: Workspace, name: string, configOrder: seq<string>, o: CreateOracles)
    returns (calls: seq<Call>)
    requires Enumerates(configOrder, ws.envVars)
    requires HasFreeUiPort(o.available)
    ensures calls == RequestCalls(o.isLocal, CreateCall(ws, name, configOrder, o))
  {
    var bindings, ui, toolbox := BuildPortBindings(o.available, o.isLocal, o.ephemeral);
    calls := if o.isLocal then [EphemeralPort] else [];
    LeastFreeIsFirstFree(o.available, ui);
    assert UiPortOf(o) == ui;
    var config := GetContainerCreateConfig(ws, toolbox, configOrder);
    var create := ContainerCreate(name, config, HostConfigFor(bindings));
    assert create == CreateCall(ws, name, configOrder, o);
    calls := calls + [create];
  }

  /** pkg/docker/create.go:109-183, from the start of the container `id` on.
      The SSH session is closed once the bootstrap ends, as the deferred
      `Close` does. */
  method Launch(id: string, env: StringMap, exportOrder: seq<string>, o: CreateOracles)
    returns (res: Outcome, calls: seq<Call>)
    requires Enumerates(exportOrder, env)
    requires o.start.Pass? ==> PollStops(o.inspects)
    ensures Run(res, calls) == LaunchRun(id, env, exportOrder, o)
  {
    calls := [ContainerStart(id)];
    if o.start.Fail? {
      res := Fail(Wrapped(StartContext, o.start.error));
      return;
    }

    var polled, inspectCalls := PollUntilRunning(id, o.inspects);
    calls := calls + inspectCalls;
    if polled.Fail? {
      res := polled;
      return;
    }

    calls := calls + [OpenWebUI, WaitForBoot(id)];
    if o.bootWait.Fail? {
      res := Fail(Wrapped(BootContext, o.bootWait.error));
      return;
    }

    calls := calls + [OpenSsh];
    if o.ssh.Fail? {
      res := Fail(Wrapped(SshContext, o.ssh.error));
      return;
    }

    var booted, execCalls := RunBootstrap(env, exportOrder, o.exec);
    calls := calls + execCalls + [CloseSsh];
    res := booted;
  }

  // ---------------------------------------------------------------------------
  // What a run of CreateWorkspace does

  /** A failure anywhere before the bootstrap ends the run with an error
      before any command is executed on the guest, and before a session is
      opened that would need closing. */
  lemma LaunchEarlyFailureRunsNoCommand(id: string, env: StringMap, exportOrder: seq<string>, o: CreateOracles)
    requires Enumerates(exportOrder, env)
    requires o.start.Pass? ==> PollStops(o.inspects)
    requires !(o.start.Pass? && o.inspects[FirstStop(o.inspects)].Ok? && o.bootWait.Pass? && o.ssh.Pass?)
    ensures var r := LaunchRun(id, env, exportOrder, o);
      r.outcome.Fail? && NoCommand(r.calls) && CloseSsh !in r.calls
  {
    if o.start.Pass? {
      PollRepeatsUntilRunning(id, o.inspects);
      var poll := PollRun(id, o.inspects);
      var polled := [ContainerStart(id)] + poll.calls;
      assert NoCommand(polled) && CloseSsh !in polled;
      if poll.outcome.Pass? {
        var waited := polled + [OpenWebUI, WaitForBoot(id)];
        var session := waited + [OpenSsh];
        assert NoCommand(waited) && CloseSsh !in waited;
        assert NoCommand(session) && CloseSsh !in session;
        var r := LaunchRun(id, env, exportOrder, o);
        assert r.calls == waited || r.calls == session;
      }
    }
  }

  lemma EarlyFailureRunsNoCommand(create: Call, env: StringMap, exportOrder: seq<string>, o: CreateOracles)
    requires create.ContainerCreate? && Enumerates(exportOrder, env)
    requires Terminates(o)
    requires !ReachesBootstrap(o)
    ensures var r := CreateRun(create, env, exportOrder, o);
      r.outcome.Fail? && NoCommand(r.calls) && CloseSsh !in r.calls
  {
    if o.pull.Pass? && o.create.Ok? {
      LaunchEarlyFailureRunsNoCommand(o.create.value, env, exportOrder, o);
      var requested := RequestCalls(o.isLocal, create);
      var launch := LaunchRun(o.create.value, env, exportOrder, o);
      assert NoCommand(requested + launch.calls);
    }
  }

  /** The calls of a run that reached the bootstrap, before its first command. */
  function SessionCalls(create: Call, o: CreateOracles): (s: seq<Call>)
    requires create.ContainerCreate?
    requires Terminates(o) && ReachesBootstrap(o)
    ensures NoCommand(s) && CloseSsh !in s
    ensures |s| > 0 && s[|s| - 1] == OpenSsh
  {
    [PullImage(Image)] + RequestCalls(o.isLocal, create) + LaunchedCalls(o.create.value, o)
  }

  /** The calls from the container's start to the opening of the session. */
  function LaunchedCalls(id: string, o: CreateOracles): (s: seq<Call>)
    requires PollStops(o.inspects)
    ensures NoCommand(s) && CloseSsh !in s
    ensures |s| > 0 && s[|s| - 1] == OpenSsh
  {
    [ContainerStart(id)] + Repeat(ContainerInspect(id), FirstStop(o.inspects) + 1) + [OpenWebUI, WaitForBoot(id), OpenSsh]
  }

  lemma LaunchRunsBootstrap(id: string, env: StringMap, exportOrder: seq<string>, o: CreateOracles)
    requires Enumerates(exportOrder, env)
    requires o.start.Pass? && PollStops(o.inspects)
    requires o.inspects[FirstStop(o.inspects)].Ok? && o.bootWait.Pass? && o.ssh.Pass?
    ensures var b := FailFast(BootstrapSteps(env, exportOrder), o.exec, 0);
      LaunchRun(id, env, exportOrder, o)
        == Run(b.outcome, LaunchedCalls(id, o) + b.calls + [CloseSsh])
  {
    PollRepeatsUntilRunning(id, o.inspects);
  }

  /** Once every stage has succeeded, the bootstrap runs over the session
      just opened, its calls are the only commands of the run, the session
      is closed last, and the run returns what the bootstrap returns. */
  lemma BootstrapRunsLast(create: Call, env: StringMap, exportOrder: seq<string>, o: CreateOracles)
    requires create.ContainerCreate? && Enumerates(exportOrder, env)
    requires Terminates(o)
    requires ReachesBootstrap(o)
    ensures var r := CreateRun(create, env, exportOrder, o);
      var b := FailFast(BootstrapSteps(env, exportOrder), o.exec, 0);
      && r.outcome == b.outcome
      && r.calls == SessionCalls(create, o) + b.calls + [CloseSsh]
  {
    var requested := RequestCalls(o.isLocal, create);
    var launched := LaunchedCalls(o.create.value, o);
    var b := FailFast(BootstrapSteps(env, exportOrder), o.exec, 0);
    LaunchRunsBootstrap(o.create.value, env, exportOrder, o);
    var tail := b.calls + [CloseSsh];
    Associative(launched, b.calls, [CloseSsh]);
    Associative(requested, launched, tail);
    Associative([PullImage(Image)], requested + launched, tail);
    Associative([PullImage(Image)], requested, launched);
    Associative([PullImage(Image)] + requested + launched, b.calls, [CloseSsh]);
  }

  /** The run succeeds exactly when every stage and every one of the
      7 + |env| bootstrap commands does. */
  lemma CreateSucceedsIff(create: Call, env: StringMap, exportOrder: seq<string>, o: CreateOracles)
    requires create.ContainerCreate? && Enumerates(exportOrder, env)
    requires Terminates(o)
    ensures CreateRun(create, env, exportOrder, o).outcome.Pass?
        <==> ReachesBootstrap(o) && forall i :: 0 <= i < 7 + |env| ==> o.exec(i).Pass?
  {
    if ReachesBootstrap(o) {
      BootstrapRunsLast(create, env, exportOrder, o);
      BootstrapSucceedsIffAllPass(env, exportOrder, o.exec);
    } else {
      EarlyFailureRunsNoCommand(create, env, exportOrder, o);
    }
  }

  /** The creation request names the container and binds the UI port to the
      least free port from 8006. */
  lemma CreateCallBindsUiPort(ws: Workspace, name: string, configOrder: seq<string>, o: CreateOracles)
    requires Enumerates(configOrder, ws.envVars)
    requires HasFreeUiPort(o.available)
    ensures var call := CreateCall(ws, name, configOrder, o);
      && call.name == name
      && IsLeastFree(o.available, ParseDecimal(call.host.portBindings[UiPort][0].hostPort))
  {
    var toolbox := ToolboxHostPort(o.isLocal, o.ephemeral);
    var table := PortBindingTable(UiPortOf(o), toolbox);
    assert CreateCall(ws, name, configOrder, o).host == HostConfigFor(table);
  }

  /** The creation request binds the toolbox port exactly when the target is
      local and the ephemeral-port request succeeded, to that port. */
  lemma CreateCallBindsToolboxPort(ws: Workspace, name: string, configOrder: seq<string>, o: CreateOracles)
    requires Enumerates(configOrder, ws.envVars)
    requires HasFreeUiPort(o.available)
    ensures var bindings := CreateCall(ws, name, configOrder, o).host.portBindings;
      && (ToolboxPort in bindings <==> o.isLocal && o.ephemeral.Ok?)
      && (o.isLocal && o.ephemeral.Ok? ==> ParseDecimal(bindings[ToolboxPort][0].hostPort) == o.ephemeral.value)
  {
    var toolbox := ToolboxHostPort(o.isLocal, o.ephemeral);
    var table := PortBindingTable(UiPortOf(o), toolbox);
    assert CreateCall(ws, name, configOrder, o).host == HostConfigFor(table);
  }

  /** The container exposes the toolbox port and carries the toolbox label
      exactly when the target is local and the ephemeral-port request
      succeeded, the label reading back as that port. */
  lemma CreateCallLabelsToolboxPort(ws: Workspace, name: string, configOrder: seq<string>, o: CreateOracles)
    requires Enumerates(configOrder, ws.envVars)
    requires HasFreeUiPort(o.available)
    ensures var config := CreateCall(ws, name, configOrder, o).config;
      && (ToolboxPort in config.exposedPorts <==> o.isLocal && o.ephemeral.Ok?)
      && (ToolboxLabel in config.labels <==> o.isLocal && o.ephemeral.Ok?)
      && (o.isLocal && o.ephemeral.Ok? ==> ParseDecimal(config.labels[ToolboxLabel]) == o.ephemeral.value)
  {
    var toolbox := ToolboxHostPort(o.isLocal, o.ephemeral);
    assert CreateCall(ws, name, configOrder, o).config == GetContainerCreateConfig(ws, toolbox, configOrder);
  }

  /** Once the image is pulled the container is always requested, whether or
      not an ephemeral port could be had: the run starts with the pull, the
      ephemeral-port request exactly on a local target, and the creation. */
  lemma ContainerRequested(create: Call, env: StringMap, exportOrder: seq<string>, o: CreateOracles)
    requires create.ContainerCreate? && Enumerates(exportOrder, env)
    requires Terminates(o)
    requires o.pull.Pass?
    ensures var r := CreateRun(create, env, exportOrder, o);
      var requested := RequestCalls(o.isLocal, create);
      && 1 + |requested| <= |r.calls|
      && r.calls[..1 + |requested|] == [PullImage(Image)] + requested
  {
    var requested := RequestCalls(o.isLocal, create);
    if o.create.Ok? {
      var launch := LaunchRun(o.create.value, env, exportOrder, o);
      Associative([PullImage(Image)], requested, launch.calls);
    }
  }
}
