/** The container's launch configuration, `GetContainerCreateConfig`
    (pkg/docker/create.go:186-228), and the host configuration
    `CreateWorkspace` passes beside it (pkg/docker/create.go:81-104). */
module Config {
  import opened Errors
  import opened Ports
  import opened MapOrder

  /** The part of `models.Workspace` the configuration reads. */
  datatype Workspace = Workspace(id: string, targetId: string, repositoryUrl: string, envVars: StringMap)

  /** The part of `container.Config` the provider sets. */
  datatype ContainerConfig = ContainerConfig(
    hostname: string,
    image: string,
    labels: map<string, string>,
    user: string,
    entrypoint: seq<string>,
    env: seq<string>,
    attachStdout: bool,
    attachStderr: bool,
    exposedPorts: set<string>,
    stopTimeout: int)

  /** `container.DeviceMapping`. */
  datatype DeviceMapping = DeviceMapping(pathOnHost: string, pathInContainer: string)

  /** The part of `container.HostConfig` the provider sets. */
  datatype HostConfig = HostConfig(
    privileged: bool,
    mounts: seq<string>,
    extraHosts: seq<string>,
    portBindings: PortMap,
    devices: seq<DeviceMapping>,
    capAdd: seq<string>)

  const Image := "dockurr/macos:latest"

  /** QEMU arguments: forward guest ports 22, 2222 and 2280. */
  const ArgumentsEntry := "ARGUMENTS=-device e1000,netdev=net0  -netdev user,id=net0,hostfwd=tcp::22-:22,hostfwd=tcp::2222-:2222,hostfwd=tcp::2280-:2280"

  const TargetIdLabel := "daytona.target.id"
  const WorkspaceIdLabel := "daytona.workspace.id"
  const RepositoryUrlLabel := "daytona.workspace.repository.url"
  const ToolboxLabel := "daytona.toolbox.api.hostPort"

  const Entrypoint := ["/usr/bin/tini", "-s", "/run/entry.sh"]
  const StopTimeoutSeconds := 120

  /** One environment entry, `fmt.Sprintf("%s=%s", key, value)`. */
  function EnvAssignment(key: string, value: string): string
  {
    key + "=" + value
  }

  /** The environment list: the QEMU arguments, then one `K=V` per variable. */
  function EnvList(env: StringMap, order: seq<string>): (l: seq<string>)
    requires Enumerates(order, env)
    ensures |l| == 1 + |order| && l[0] == ArgumentsEntry
    ensures forall j :: 0 <= j < |order| ==> l[1 + j] == EnvAssignment(order[j], env[order[j]])
    ensures |l| == 1 + |env|
  {
    EnumerationLength(order, env);
    RenderEntries(env, order, EnvAssignment);
    [ArgumentsEntry] + Render(env, order, EnvAssignment)
  }

  /** The discovery labels, plus the toolbox host port when there is one. */
  function Labels(ws: Workspace, toolbox: Option<Port>): (l: map<string, string>)
    ensures l.Keys == {TargetIdLabel, WorkspaceIdLabel, RepositoryUrlLabel}
                      + (if toolbox.Some? then {ToolboxLabel} else {})
    ensures l[TargetIdLabel] == ws.targetId
    ensures l[WorkspaceIdLabel] == ws.id
    ensures l[RepositoryUrlLabel] == ws.repositoryUrl
    ensures toolbox.Some? ==> ParseDecimal(l[ToolboxLabel]) == toolbox.value
  {
    var labels := map[TargetIdLabel := ws.targetId,
                      WorkspaceIdLabel := ws.id,
                      RepositoryUrlLabel := ws.repositoryUrl];
    match toolbox
    case None => labels
    case Some(p) =>
      ParseDecimalRoundTrip(p);
      labels[ToolboxLabel := DecimalString(p)]
  }

  /** `order` is the order in which `range` visits `ws.envVars` in this call. */
  function GetContainerCreateConfig(ws: Workspace, toolbox: Option<Port>, order: seq<string>): (c: ContainerConfig)
    requires Enumerates(order, ws.envVars)
    ensures c.hostname == ws.id
    ensures c.image == Image && c.user == "root" && c.entrypoint == Entrypoint
    ensures c.stopTimeout == StopTimeoutSeconds && c.attachStdout && c.attachStderr
    ensures c.labels.Keys == {TargetIdLabel, WorkspaceIdLabel, RepositoryUrlLabel}
                             + (if toolbox.Some? then {ToolboxLabel} else {})
    ensures c.labels[TargetIdLabel] == ws.targetId
    ensures c.labels[WorkspaceIdLabel] == ws.id
    ensures c.labels[RepositoryUrlLabel] == ws.repositoryUrl
    ensures toolbox.Some? ==> ParseDecimal(c.labels[ToolboxLabel]) == toolbox.value
    ensures c.exposedPorts == {SshPort, GuestSshPort} + (if toolbox.Some? then {ToolboxPort} else {})
    ensures ToolboxLabel in c.labels <==> toolbox.Some?
    ensures ToolboxPort in c.exposedPorts <==> toolbox.Some?
    ensures |c.env| == 1 + |order| && c.env[0] == ArgumentsEntry
    ensures forall j :: 0 <= j < |order| ==> c.env[1 + j] == EnvAssignment(order[j], ws.envVars[order[j]])
    ensures |c.env| == 1 + |ws.envVars|
  {
    var exposed := if toolbox.Some? then {ToolboxPort} else {};
    ContainerConfig(
      hostname := ws.id,
      image := Image,
      labels := Labels(ws, toolbox),
      user := "root",
      entrypoint := Entrypoint,
      env := EnvList(ws.envVars, order),
      attachStdout := true,
      attachStderr := true,
      exposedPorts := exposed + {SshPort, GuestSshPort},
      stopTimeout := StopTimeoutSeconds)
  }

  /** Every environment variable of the workspace appears in the list as its
      `K=V` entry. */
  lemma EveryEnvVarIsPassed(ws: Workspace, toolbox: Option<Port>, order: seq<string>, key: string)
    requires Enumerates(order, ws.envVars)
    requires key in ws.envVars
    ensures EnvAssignment(key, ws.envVars[key]) in GetContainerCreateConfig(ws, toolbox, order).env[1..]
  {
    var c := GetContainerCreateConfig(ws, toolbox, order);
    var j :| 0 <= j < |order| && order[j] == key;
    assert c.env[1..][j] == c.env[1 + j];
  }

  /** The iteration order of the map changes only the order of the entries
      after the first: the two configurations agree on everything else, and
      their environment lists are permutations of each other. */
  lemma ConfigOrderIndependent(ws: Workspace, toolbox: Option<Port>, o1: seq<string>, o2: seq<string>)
    requires Enumerates(o1, ws.envVars) && Enumerates(o2, ws.envVars)
    ensures var c1, c2 := GetContainerCreateConfig(ws, toolbox, o1), GetContainerCreateConfig(ws, toolbox, o2);
      && c1.(env := c2.env) == c2
      && c1.env[0] == c2.env[0]
      && multiset(c1.env) == multiset(c2.env)
  {
    var c1, c2 := GetContainerCreateConfig(ws, toolbox, o1), GetContainerCreateConfig(ws, toolbox, o2);
    RenderOrderIndependent(ws.envVars, o1, o2, EnvAssignment);
    assert c1.env == [ArgumentsEntry] + Render(ws.envVars, o1, EnvAssignment);
    assert c2.env == [ArgumentsEntry] + Render(ws.envVars, o2, EnvAssignment);
    assert multiset(c1.env) == multiset{ArgumentsEntry} + multiset(Render(ws.envVars, o1, EnvAssignment));
  }

  /** The host configuration of pkg/docker/create.go:81-104: privileged, no
      mounts, the host gateway alias, the given port bindings, the KVM and
      TUN devices, and the NET_ADMIN and SYS_ADMIN capabilities. */
  function HostConfigFor(bindings: PortMap): (h: HostConfig)
    ensures h.privileged && h.portBindings == bindings
    ensures h.devices == [DeviceMapping("/dev/kvm", "/dev/kvm"), DeviceMapping("/dev/net/tun", "/dev/net/tun")]
    ensures h.capAdd == ["NET_ADMIN", "SYS_ADMIN"]
  {
    HostConfig(
      privileged := true,
      mounts := [],
      extraHosts := ["host.docker.internal:host-gateway"],
      portBindings := bindings,
      devices := [DeviceMapping("/dev/kvm", "/dev/kvm"), DeviceMapping("/dev/net/tun", "/dev/net/tun")],
      capAdd := ["NET_ADMIN", "SYS_ADMIN"])
  }
}
