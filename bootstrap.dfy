/** The remote bootstrap of a freshly booted guest (pkg/docker/create.go:152-181):
    six fixed setup commands, one `export` line per workspace environment
    variable, then a final reload of the shell profile, each run over the SSH
    session and each stopping the whole sequence on its first failure. */
module Bootstrap {
  import opened Errors
  import opened MapOrder
  import opened Trace

  /** A command together with the context its failure is wrapped in. */
  datatype Step = Step(command: string, context: string)

  /** Passwordless sudo, Homebrew, its shell hook, a profile reload and the
      Daytona installer, in that order. */
  const SetupCommands: seq<string> := [
    "echo 'daytona' | sudo -S bash -c 'echo \"daytona ALL=(ALL) NOPASSWD:ALL\" | sudo EDITOR=\"tee -a\" visudo'",
    "NONINTERACTIVE=1 /bin/bash -c \"$(curl -fsSL https://raw.githubusercontent.com/Homebrew/install/HEAD/install.sh)\" -y",
    "echo >> /Users/daytona/.zprofile",
    "echo 'eval \"$(/usr/local/bin/brew shellenv)\"' >> ~/.zshrc",
    "source ~/.zshrc",
    "(curl -sf -L https://download.daytona.io/daytona/install.sh | sudo bash)"
  ]

  const ReloadProfile := "source ~/.zshrc"

  /** The command that appends `export key="value"` to the guest's ~/.zshrc. */
  function ExportCommand(key: string, value: string): string
  {
    "echo 'export " + key + "=\"" + value + "\"' >> ~/.zshrc"
  }

  const SetContext := "failed to set "

  function SetupStep(command: string): Step
  {
    Step(command, "failed to execute command " + command)
  }

  function ExportStep(key: string, value: string): Step
  {
    Step(ExportCommand(key, value), SetContext + key)
  }

  const FinalStep := Step(ReloadProfile, "failed to run 'source ~/.zshrc'")

  function SetupSteps(): (s: seq<Step>)
    ensures |s| == |SetupCommands|
    ensures forall i :: 0 <= i < |s| ==> s[i] == SetupStep(SetupCommands[i])
  {
    seq(|SetupCommands|, i requires 0 <= i < |SetupCommands| => SetupStep(SetupCommands[i]))
  }

  /** The export steps, in the order `range` visits the variables. */
  function ExportSteps(env: StringMap, order: seq<string>): seq<Step>
    requires Enumerates(order, env)
  {
    Render(env, order, ExportStep)
  }

  /** Every step the bootstrap would run if none failed. */
  function BootstrapSteps(env: StringMap, order: seq<string>): seq<Step>
    requires Enumerates(order, env)
  {
    SetupSteps() + ExportSteps(env, order) + [FinalStep]
  }

  /** The `Exec` calls that running `steps` issues. */
  function Issued(steps: seq<Step>): (calls: seq<Call>)
    ensures |calls| == |steps|
    ensures forall j :: 0 <= j < |steps| ==> calls[j] == Exec(steps[j].command)
  {
    seq(|steps|, j requires 0 <= j < |steps| => Exec(steps[j].command))
  }

  // ---------------------------------------------------------------------------
  // Fail-fast execution, as a reference definition

  /** Runs `steps` from index `i` on, the `j`-th command on the session
      answering `exec(j)`, and stops at the first failure, wrapping it in the
      failing step's context. */
  function FailFast(steps: seq<Step>, exec: nat -> Outcome, i: nat): Run
    decreases |steps| - i
  {
    if i >= |steps| then Run(Pass, [])
    else
      var call := Exec(steps[i].command);
      match exec(i)
      case Fail(e) => Run(Fail(Wrapped(steps[i].context, e)), [call])
      case Pass => After([call], FailFast(steps, exec, i + 1))
  }

  /** The index of the first command from `i` on that fails, or `n` if none
      before `n` does. */
  function FirstFailure(exec: nat -> Outcome, i: nat, n: nat): (k: nat)
    requires i <= n
    ensures i <= k <= n
    ensures forall j :: i <= j < k ==> exec(j).Pass?
    ensures k < n ==> exec(k).Fail?
    decreases n - i
  {
    if i == n || exec(i).Fail? then i else FirstFailure(exec, i + 1, n)
  }

  /** The first failure is the failing command all of whose predecessors passed. */
  lemma {:induction false} FirstFailureAt(exec: nat -> Outcome, i: nat, n: nat, k: nat)
    requires i <= k < n && exec(k).Fail?
    requires forall j :: i <= j < k ==> exec(j).Pass?
    ensures FirstFailure(exec, i, n) == k
    decreases k - i
  {
    if i < k {
      FirstFailureAt(exec, i + 1, n, k);
    }
  }

  /** Fail-fast execution from `i` on issues exactly the steps up to and
      including the first failing one, and reports that failure in that
      step's context; if none fails it issues them all and succeeds. */
  ghost predicate StopsAtFirstFailure(steps: seq<Step>, exec: nat -> Outcome, i: nat)
    requires i <= |steps|
  {
    var k := FirstFailure(exec, i, |steps|);
    FailFast(steps, exec, i)
      == if k == |steps| then Run(Pass, Issued(steps[i..]))
         else Run(Fail(Wrapped(steps[k].context, exec(k).error)), Issued(steps[i..k + 1]))
  }

  lemma {:induction false} FailFastStopsAtFirstFailure(steps: seq<Step>, exec: nat -> Outcome, i: nat)
    requires i <= |steps|
    ensures StopsAtFirstFailure(steps, exec, i)
    decreases |steps| - i
  {
    if i == |steps| {
      assert Issued(steps[i..]) == [];
    } else if exec(i).Pass? {
      FailFastStopsAtFirstFailure(steps, exec, i + 1);
      StopsAfterPass(steps, exec, i);
    } else {
      assert Issued(steps[i..i + 1]) == [Exec(steps[i].command)];
    }
  }

  /** The inductive step: a passing step followed by a run that stops at its
      first failure. */
  lemma StopsAfterPass(steps: seq<Step>, exec: nat -> Outcome, i: nat)
    requires i < |steps| && exec(i).Pass?
    requires StopsAtFirstFailure(steps, exec, i + 1)
    ensures StopsAtFirstFailure(steps, exec, i)
  {
    var k := FirstFailure(exec, i, |steps|);
    assert k == FirstFailure(exec, i + 1, |steps|);
    var end := if k == |steps| then k else k + 1;
    IssuedCons(steps, i, end);
  }

  /** Issuing a slice of steps issues its first step, then the rest. */
  lemma IssuedCons(steps: seq<Step>, i: nat, end: nat)
    requires i < end <= |steps|
    ensures Issued(steps[i..end]) == [Exec(steps[i].command)] + Issued(steps[i + 1..end])
  {
    assert steps[i..end] == [steps[i]] + steps[i + 1..end];
  }

  // ---------------------------------------------------------------------------
  // The bootstrap sequence

  lemma BootstrapStepsShape(env: StringMap, order: seq<string>)
    requires Enumerates(order, env)
    ensures var steps := BootstrapSteps(env, order);
      && |steps| == |SetupCommands| + |order| + 1 == 7 + |env|
      && steps[..|SetupCommands|] == SetupSteps()
      && (forall j :: 0 <= j < |order| ==> steps[|SetupCommands| + j] == ExportStep(order[j], env[order[j]]))
      && steps[|steps| - 1] == FinalStep
  {
    EnumerationLength(order, env);
    RenderEntries(env, order, ExportStep);
  }

  /** One step of fail-fast execution. */
  lemma FailFastStep(steps: seq<Step>, exec: nat -> Outcome, i: nat)
    requires i < |steps|
    ensures exec(i).Fail? ==>
      FailFast(steps, exec, i) == Run(Fail(Wrapped(steps[i].context, exec(i).error)), [Exec(steps[i].command)])
    ensures exec(i).Pass? ==>
      FailFast(steps, exec, i) == After([Exec(steps[i].command)], FailFast(steps, exec, i + 1))
  {
  }

  lemma AfterAfter(a: seq<Call>, b: seq<Call>, r: Run)
    ensures After(a, After(b, r)) == After(a + b, r)
  {
    assert a + (b + r.calls) == (a + b) + r.calls;
  }

  /** Runs `steps[i]` after the calls already made, as each loop of the
      source does, and keeps the loops' common invariant. */
  lemma RunOneStep(steps: seq<Step>, exec: nat -> Outcome, calls: seq<Call>, i: nat)
    requires i == |calls| < |steps|
    requires FailFast(steps, exec, 0) == After(calls, FailFast(steps, exec, i))
    ensures exec(i).Fail? ==>
      FailFast(steps, exec, 0) == Run(Fail(Wrapped(steps[i].context, exec(i).error)), calls + [Exec(steps[i].command)])
    ensures exec(i).Pass? ==>
      FailFast(steps, exec, 0) == After(calls + [Exec(steps[i].command)], FailFast(steps, exec, i + 1))
  {
    FailFastStep(steps, exec, i);
    AfterAfter(calls, [Exec(steps[i].command)], FailFast(steps, exec, i + 1));
  }

  /** The steps of pkg/docker/create.go:161-181 run over the SSH session.
      `exec(j)` is what the `j`-th `ExecuteCommand` call on the session
      returns; `order` is the order in which `range` visits the environment
      variables. */
  method RunBootstrap(env: StringMap, order: seq<string>, exec: nat -> Outcome)
    returns (res: Outcome, calls: seq<Call>)
    requires Enumerates(order, env)
    ensures Run(res, calls) == FailFast(BootstrapSteps(env, order), exec, 0)
  {
    BootstrapStepsShape(env, order);
    res, calls := RunCommandLoops(env, order, exec, BootstrapSteps(env, order));
  }

  /** The source's three loops: the setup commands, one export per visited
      variable, the final reload, each returning on its first failure.
      `steps` is the bootstrap sequence they walk through. */
  method RunCommandLoops(env: StringMap, order: seq<string>, exec: nat -> Outcome, ghost steps: seq<Step>)
    returns (res: Outcome, calls: seq<Call>)
    requires forall k :: k in order ==> k in env
    requires |steps| == |SetupCommands| + |order| + 1
    requires steps[..|SetupCommands|] == SetupSteps()
    requires forall j :: 0 <= j < |order| ==> steps[|SetupCommands| + j] == ExportStep(order[j], env[order[j]])
    requires steps[|steps| - 1] == FinalStep
    ensures Run(res, calls) == FailFast(steps, exec, 0)
  {
    ghost var spec := FailFast(steps, exec, 0);
    calls := [];
    for i := 0 to |SetupCommands|
      invariant |calls| == i
      invariant spec == After(calls, FailFast(steps, exec, i))
    {
      var command := SetupCommands[i];
      assert steps[i] == SetupStep(command) by {
        assert steps[i] == steps[..|SetupCommands|][i];
      }
      var err := exec(i);
      RunOneStep(steps, exec, calls, i);
      calls := calls + [Exec(command)];
      if err.Fail? {
        res := Fail(Wrapped("failed to execute command " + command, err.error));
        return;
      }
    }
    for j := 0 to |order|
      invariant |calls| == |SetupCommands| + j
      invariant spec == After(calls, FailFast(steps, exec, |calls|))
    {
      var key := order[j];
      var i := |calls|;
      assert steps[i] == ExportStep(key, env[key]);
      var err := exec(i);
      RunOneStep(steps, exec, calls, i);
      calls := calls + [Exec(ExportCommand(key, env[key]))];
      if err.Fail? {
        res := Fail(Wrapped(SetContext + key, err.error));
        return;
      }
    }
    var last := |calls|;
    assert steps[last] == FinalStep;
    var err := exec(last);
    RunOneStep(steps, exec, calls, last);
    calls := calls + [Exec(ReloadProfile)];
    if err.Fail? {
      res := Fail(Wrapped("failed to run 'source ~/.zshrc'", err.error));
      return;
    }
    assert FailFast(steps, exec, last + 1) == Run(Pass, []);
    res := Pass;
  }

  /** The first failing step ends the run: the steps up to it are issued and
      its failure is reported in its context. */
  lemma {:induction false} FailFastFailsAt(steps: seq<Step>, exec: nat -> Outcome, i: nat, k: nat)
    requires i <= k < |steps| && exec(k).Fail?
    requires forall j :: i <= j < k ==> exec(j).Pass?
    ensures FailFast(steps, exec, i) == Run(Fail(Wrapped(steps[k].context, exec(k).error)), Issued(steps[i..k + 1]))
    decreases k - i
  {
    IssuedCons(steps, i, k + 1);
    if i < k {
      FailFastFailsAt(steps, exec, i + 1, k);
    }
  }

  /** If setup command `k` is the first to fail, exactly setup commands
      0..k have run: no export and no final reload. */
  lemma SetupFailureStopsBootstrap(env: StringMap, order: seq<string>, exec: nat -> Outcome, k: nat)
    requires Enumerates(order, env)
    requires k < |SetupCommands| && exec(k).Fail?
    requires forall j :: 0 <= j < k ==> exec(j).Pass?
    ensures FailFast(BootstrapSteps(env, order), exec, 0)
         == Run(Fail(Wrapped("failed to execute command " + SetupCommands[k], exec(k).error)),
                Issued(SetupSteps()[..k + 1]))
  {
    var steps := BootstrapSteps(env, order);
    BootstrapStepsShape(env, order);
    FailFastFailsAt(steps, exec, 0, k);
    assert steps[0..k + 1] == steps[..k + 1];
  }

  /** If the export of the `j`-th visited variable is the first command to
      fail, every setup command and the exports before it have run, the final
      reload has not, and the error names the variable. */
  lemma ExportFailureNamesKey(env: StringMap, order: seq<string>, exec: nat -> Outcome, j: nat)
    requires Enumerates(order, env)
    requires j < |order| && exec(|SetupCommands| + j).Fail?
    requires forall i :: 0 <= i < |SetupCommands| + j ==> exec(i).Pass?
    ensures var r := FailFast(BootstrapSteps(env, order), exec, 0);
      && r.outcome == Fail(Wrapped(SetContext + order[j], exec(|SetupCommands| + j).error))
      && r.calls == Issued(BootstrapSteps(env, order)[..|SetupCommands| + j + 1])
      && |r.calls| < |BootstrapSteps(env, order)|
      && Message(r.outcome.error)[..|SetContext + order[j]|] == SetContext + order[j]
  {
    var steps := BootstrapSteps(env, order);
    var k := |SetupCommands| + j;
    BootstrapStepsShape(env, order);
    FailFastFailsAt(steps, exec, 0, k);
    assert steps[0..k + 1] == steps[..k + 1];
    WrappedMessageNamesContext(SetContext + order[j], exec(k).error);
  }

  /** The bootstrap succeeds exactly when every one of its 7 + |env| commands
      does, and then it has issued every step once, in order. */
  lemma BootstrapSucceedsIffAllPass(env: StringMap, order: seq<string>, exec: nat -> Outcome)
    requires Enumerates(order, env)
    ensures var r := FailFast(BootstrapSteps(env, order), exec, 0);
      && (r.outcome.Pass? <==> forall i :: 0 <= i < 7 + |env| ==> exec(i).Pass?)
      && (r.outcome.Pass? ==> r.calls == Issued(BootstrapSteps(env, order)))
  {
    var steps := BootstrapSteps(env, order);
    BootstrapStepsShape(env, order);
    FailFastStopsAtFirstFailure(steps, exec, 0);
    assert steps[0..] == steps;
  }

  lemma PrefixCancel(p: string, a: string, b: string)
    requires p + a == p + b
    ensures a == b
  {
    assert a == (p + a)[|p|..];
    assert b == (p + b)[|p|..];
  }

  /** Each environment variable gets exactly one export step, whatever order
      the map is visited in. */
  lemma ExportStepOncePerKey(env: StringMap, order: seq<string>, key: string)
    requires Enumerates(order, env) && key in env
    ensures multiset(ExportSteps(env, order))[ExportStep(key, env[key])] == 1
  {
    forall k1, k2 | k1 in env && k2 in env && ExportStep(k1, env[k1]) == ExportStep(k2, env[k2])
      ensures k1 == k2
    {
      PrefixCancel(SetContext, k1, k2);
    }
    RenderOncePerKey(env, order, ExportStep, key);
  }

  /** Two visiting orders give the same setup commands, the same final
      reload and the same export steps up to their order. */
  lemma BootstrapOrderIndependent(env: StringMap, o1: seq<string>, o2: seq<string>)
    requires Enumerates(o1, env) && Enumerates(o2, env)
    ensures |BootstrapSteps(env, o1)| == |BootstrapSteps(env, o2)|
    ensures BootstrapSteps(env, o1)[..|SetupCommands|] == BootstrapSteps(env, o2)[..|SetupCommands|]
    ensures multiset(BootstrapSteps(env, o1)) == multiset(BootstrapSteps(env, o2))
  {
    BootstrapStepsShape(env, o1);
    BootstrapStepsShape(env, o2);
    RenderOrderIndependent(env, o1, o2, ExportStep);
  }
}
