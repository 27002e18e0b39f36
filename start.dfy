/** `StartWorkspace` (pkg/docker/start.go:13-57): bring an existing workspace
    container to running state, starting it and waiting for the guest to
    boot only when it is stopped, then launch the Daytona agent in the guest
    over SSH. A failure to launch the agent is logged, not returned. */
module Start {
  import opened Errors
  import opened Trace

  const InspectContext := "failed to inspect container when starting project"
  const StartContext := "failed to start container"

  /** Starts the agent detached through the guest's shell profile. */
  const AgentCommand :=
    "source ~/.zshrc && osascript -e 'do shell script \"daytona agent > /Users/daytona/.daytona-agent.log 2>&1 &\"'"

  const AgentStarted := "Daytona agent started\n"

  const AgentFailurePrefix := "failed to execute command " + AgentCommand

  /** The line written to the workspace log when the agent command fails:
      it names the command, then the error. */
  function AgentFailureLine(e: Error): (line: string)
    ensures |line| == |AgentFailurePrefix| + 2 + |Message(e)| + 1
    ensures line[..|AgentFailurePrefix|] == AgentFailurePrefix
    ensures line[|AgentFailurePrefix| + 2..|line| - 1] == Message(e)
    ensures line[|line| - 1] == '\n'
  {
    AgentFailurePrefix + ": " + Message(e) + "\n"
  }

  /** What the collaborators of `StartWorkspace` answer in one run: `inspect`
      for the first `ContainerInspect`, `start` for `ContainerStart`,
      `reinspect` for the `ContainerInspect` after the start, `bootWait` for
      `WaitForMacOsBoot`, `ssh` for `GetSshClient` and `agent` for the
      `ExecuteCommand` that launches the agent. */
  datatype StartOracles = StartOracles(
    inspect: Result<ContainerState>,
    start: Outcome,
    reinspect: Result<ContainerState>,
    bootWait: Outcome,
    ssh: Outcome,
    agent: Outcome)

  /** A run together with the lines the operation itself writes to the
      workspace log. */
  datatype Started = Started(run: Run, log: seq<string>)

  // ---------------------------------------------------------------------------
  // Reference definition

  /** Lines 21-40: start the stopped container `name`, check that it runs,
      and wait for its guest to boot. */
  function RestartRun(name: string, o: StartOracles): Run
  {
    if o.start.Fail? then Run(Fail(Wrapped(StartContext, o.start.error)), [ContainerStart(name)])
    else
      var reinspected := [ContainerStart(name), ContainerInspect(name)];
      match o.reinspect
      case Err(e) => Run(Fail(Wrapped(InspectContext, e)), reinspected)
      case Ok(c) =>
        if !c.running then Run(Fail(Raw(StartContext)), reinspected)
        else Run(o.bootWait, reinspected + [OpenWebUI, WaitForBoot(c.id)])
  }

  /** Lines 43-56: open the session and launch the agent, logging its
      failure. */
  function AgentRun(o: StartOracles): Started
  {
    if o.ssh.Fail? then Started(Run(o.ssh, [OpenSsh]), [])
    else
      var failures := if o.agent.Fail? then [AgentFailureLine(o.agent.error)] else [];
      Started(Run(Pass, [OpenSsh, Exec(AgentCommand)]), failures + [AgentStarted])
  }

  /** Reference definition of a run of `StartWorkspace` on the container
      `name`: what it returns, the calls it makes and what it logs. */
  function StartRun(name: string, o: StartOracles): Started
  {
    var inspected := [ContainerInspect(name)];
    match o.inspect
    case Err(e) => Started(Run(Fail(Wrapped(InspectContext, e)), inspected), [])
    case Ok(c) =>
      var ready := if c.running then Run(Pass, []) else RestartRun(name, o);
      if ready.outcome.Fail? then Started(After(inspected, ready), [])
      else
        var agent := AgentRun(o);
        Started(After(inspected + ready.calls, agent.run), agent.log)
  }

  /** pkg/docker/start.go:13-57. `name` is the container name the client
      derives from the workspace. */
  method StartWorkspace(name: string, o: StartOracles)
    returns (res: Outcome, calls: seq<Call>, log: seq<string>)
    ensures Started(Run(res, calls), log) == StartRun(name, o)
  {
    log := [];
    calls := [ContainerInspect(name)];
    if o.inspect.Err? {
      res := Fail(Wrapped(InspectContext, o.inspect.error));
      return;
    }

    if !o.inspect.value.running {
      calls := calls + [ContainerStart(name)];
      if o.start.Fail? {
        res := Fail(Wrapped(StartContext, o.start.error));
        return;
      }

      calls := calls + [ContainerInspect(name)];
      if o.reinspect.Err? {
        res := Fail(Wrapped(InspectContext, o.reinspect.error));
        return;
      }
      var c := o.reinspect.value;
      if !c.running {
        res := Fail(Raw(StartContext));
        return;
      }

      calls := calls + [OpenWebUI, WaitForBoot(c.id)];
      if o.bootWait.Fail? {
        res := o.bootWait;
        return;
      }
    }

    calls := calls + [OpenSsh];
    if o.ssh.Fail? {
      res := o.ssh;
      return;
    }

    calls := calls + [Exec(AgentCommand)];
    if o.agent.Fail? {
      log := log + [AgentFailureLine(o.agent.error)];
    }
    log := log + [AgentStarted];
    res := Pass;
  }

  // ---------------------------------------------------------------------------
  // What a run of StartWorkspace does

  /** The container runs once the first stage is over: it was running, or it
      was started, found running and its guest booted. */
  predicate Ready(o: StartOracles)
  {
    && o.inspect.Ok?
    && (o.inspect.value.running
        || (o.start.Pass? && o.reinspect.Ok? && o.reinspect.value.running && o.bootWait.Pass?))
  }

  /** The operation succeeds exactly when the container is made ready and the
      session opens, whatever the agent command answers; it never closes the
      session it opens. */
  lemma StartSucceedsIff(name: string, o: StartOracles)
    ensures var s := StartRun(name, o);
      && (s.run.outcome.Pass? <==> Ready(o) && o.ssh.Pass?)
      && CloseSsh !in s.run.calls
      && (s.run.outcome.Fail? ==> NoCommand(s.run.calls) && s.log == [])
  {
  }

  /** If the first inspection fails, that error is returned in its context and
      nothing is started, waited for or executed. */
  lemma InspectFailureStartsNothing(name: string, o: StartOracles)
    requires o.inspect.Err?
    ensures var s := StartRun(name, o);
      && s.run.outcome == Fail(Wrapped(InspectContext, o.inspect.error))
      && s.run.calls == [ContainerInspect(name)]
      && s.log == []
  {
  }

  /** A running container is neither started nor waited for; it gets exactly
      one agent launch once the session opens. */
  lemma RunningContainerIsNotRestarted(name: string, o: StartOracles)
    requires o.inspect.Ok? && o.inspect.value.running
    ensures var calls := StartRun(name, o).run.calls;
      && ContainerStart(name) !in calls
      && (forall c :: c in calls ==> !c.WaitForBoot?)
      && multiset(calls)[ContainerInspect(name)] == 1
      && multiset(calls)[Exec(AgentCommand)] == (if o.ssh.Pass? then 1 else 0)
  {
  }

  lemma RestartCounts(name: string, o: StartOracles)
    ensures var calls := RestartRun(name, o).calls;
      && multiset(calls)[ContainerStart(name)] == 1
      && multiset(calls)[ContainerInspect(name)] == (if o.start.Pass? then 1 else 0)
  {
    var calls := RestartRun(name, o).calls;
    if o.start.Pass? {
      var tail := calls[2..];
      assert calls == [ContainerStart(name), ContainerInspect(name)] + tail;
      assert tail == [] || tail == [OpenWebUI, WaitForBoot(o.reinspect.value.id)];
    }
  }

  /** A stopped container is started exactly once, and inspected a second
      time once it has been started. */
  lemma StoppedContainerIsStartedOnce(name: string, o: StartOracles)
    requires o.inspect.Ok? && !o.inspect.value.running
    ensures var calls := StartRun(name, o).run.calls;
      && multiset(calls)[ContainerStart(name)] == 1
      && multiset(calls)[ContainerInspect(name)] == (if o.start.Pass? then 2 else 1)
  {
    var restarted := RestartRun(name, o);
    RestartCounts(name, o);
    var agent := AgentRun(o).run.calls;
    assert multiset(agent)[ContainerStart(name)] == 0 && multiset(agent)[ContainerInspect(name)] == 0;
    if restarted.outcome.Fail? {
      assert StartRun(name, o).run.calls == [ContainerInspect(name)] + restarted.calls;
    } else {
      assert StartRun(name, o).run.calls == [ContainerInspect(name)] + restarted.calls + agent;
    }
  }

  /** If the started container still does not run, the operation fails with
      "failed to start container" before any boot wait or command. */
  lemma StillStoppedFails(name: string, o: StartOracles)
    requires o.inspect.Ok? && !o.inspect.value.running
    requires o.start.Pass? && o.reinspect.Ok? && !o.reinspect.value.running
    ensures var s := StartRun(name, o);
      && s.run.outcome == Fail(Raw(StartContext))
      && s.run.calls == [ContainerInspect(name), ContainerStart(name), ContainerInspect(name)]
      && s.log == []
  {
  }

  /** The boot wait of a restarted container and the session are fatal: their
      errors are returned as they are, before any command runs. */
  lemma BootAndSshFailuresAreFatal(name: string, o: StartOracles)
    requires o.inspect.Ok?
    ensures var s := StartRun(name, o);
      && (!o.inspect.value.running && o.start.Pass? && o.reinspect.Ok? && o.reinspect.value.running
          && o.bootWait.Fail? ==>
            && s.run.outcome == o.bootWait
            && s.run.calls[|s.run.calls| - 1] == WaitForBoot(o.reinspect.value.id)
            && NoCommand(s.run.calls))
      && (Ready(o) && o.ssh.Fail? ==>
            && s.run.outcome == o.ssh
            && s.run.calls[|s.run.calls| - 1] == OpenSsh
            && NoCommand(s.run.calls))
  {
  }

  /** Once the session opens the agent command is the last call and the
      operation succeeds; a failure of the command only adds a log line naming
      the command and its error before "Daytona agent started". */
  lemma AgentFailureIsLogged(name: string, o: StartOracles)
    requires Ready(o) && o.ssh.Pass?
    ensures var s := StartRun(name, o);
      && s.run.outcome == Pass
      && s.run.calls[|s.run.calls| - 1] == Exec(AgentCommand)
      && s.log[|s.log| - 1] == AgentStarted
      && (o.agent.Fail? <==> |s.log| == 2)
      && (o.agent.Fail? ==> s.log[0] == AgentFailureLine(o.agent.error))
  {
  }
}
