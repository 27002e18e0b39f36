/** The external calls the provider makes, recorded in the order it makes
    them. The container runtime, the SSH client and the command executor are
    not modelled; what the model states is which of their operations are
    called, in which order, and with the arguments that vary within a run. */
module Trace {
  import opened Errors
  import opened Config

  datatype Call =
    | PullImage(image: string)                                       // d.PullImage
    | EphemeralPort                                                  // ports.GetAvailableEphemeralPort
    | ContainerCreate(name: string, config: ContainerConfig, host: HostConfig)
    | ContainerStart(container: string)                              // by id or by name
    | ContainerInspect(container: string)
    | OpenWebUI                                                      // d.OpenWebUI
    | WaitForBoot(container: string)                                 // d.WaitForMacOsBoot
    | OpenSsh                                                        // d.GetSshClient
    | Exec(command: string)                                          // d.ExecuteCommand
    | CloseSsh                                                       // the deferred sshClient.Close

  /** The part of an inspect reply the provider reads: the container's id
      and whether it is running. */
  datatype ContainerState = ContainerState(id: string, running: bool)

  /** What an operation returns together with the calls it made. */
  datatype Run = Run(outcome: Outcome, calls: seq<Call>)

  /** `r`, preceded by the calls in `prefix`. */
  function After(prefix: seq<Call>, r: Run): Run
  {
    Run(r.outcome, prefix + r.calls)
  }

  lemma Associative(a: seq<Call>, b: seq<Call>, c: seq<Call>)
    ensures a + (b + c) == a + b + c
  {
  }

  /** `n` copies of the call `c`. */
  function Repeat(c: Call, n: nat): (s: seq<Call>)
    ensures |s| == n && forall i :: 0 <= i < n ==> s[i] == c
    ensures forall x :: x in s ==> x == c
  {
    if n == 0 then [] else Repeat(c, n - 1) + [c]
  }

  /** No command was executed. */
  ghost predicate NoCommand(calls: seq<Call>)
  {
    forall c :: c in calls ==> !c.Exec?
  }
}
