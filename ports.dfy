/** Host ports: their decimal rendering in a port binding, the scan for the
    web-UI port (pkg/docker/create.go:51-64) and the table of port bindings
    handed to the container runtime (pkg/docker/create.go:37-79). */
module Ports {
  import opened Errors

  /** A TCP port, the range of Go's `uint16`. */
  type Port = p: int | 0 <= p <= MaxPort

  const MaxPort := 65535

  /** The first port the UI scan probes, also the UI port inside the container. */
  const UiBase: Port := 8006

  /** Go's conversion `uint16(n)`: the low 16 bits of `n`. */
  function Wrap16(n: int): (p: Port)
    ensures 0 <= n <= MaxPort ==> p == n
  {
    n % 65536
  }

  // ---------------------------------------------------------------------------
  // Decimal rendering (`fmt.Sprintf("%d", port)`) and its inverse

  function DigitChar(d: int): char
    requires 0 <= d < 10
  {
    (48 + d) as char
  }

  function DigitValue(c: char): int
  {
    c as int - 48
  }

  /** The decimal digits of `n`, most significant first, without leading zeros. */
  function DecimalString(n: nat): (s: string)
    ensures 0 < |s|
    ensures forall i :: 0 <= i < |s| ==> '0' <= s[i] <= '9'
    ensures n >= 10 ==> s[0] != '0'
    decreases n
  {
    if n < 10 then [DigitChar(n)] else DecimalString(n / 10) + [DigitChar(n % 10)]
  }

  /** Reads a string of decimal digits back as a number, as the container
      runtime does with a binding's host port. */
  function ParseDecimal(s: string): int
  {
    if s == [] then 0 else ParseDecimal(s[..|s| - 1]) * 10 + DigitValue(s[|s| - 1])
  }

  /** The rendered port reads back as the same number. */
  lemma {:induction false} ParseDecimalRoundTrip(n: nat)
    ensures ParseDecimal(DecimalString(n)) == n
  {
    var s := DecimalString(n);
    if n >= 10 {
      var front := DecimalString(n / 10);
      assert s == front + [DigitChar(n % 10)];
      assert s[..|s| - 1] == front;
      ParseDecimalRoundTrip(n / 10);
    }
  }

  // ---------------------------------------------------------------------------
  // The UI-port scan

  /** Some port the scan may reach, at or above `UiBase`, is reported free:
      the condition under which the unbounded scan ends. */
  ghost predicate HasFreeUiPort(available: Port -> bool)
  {
    exists p: Port :: UiBase <= p && available(p)
  }

  /** `ui` is the smallest port at or above `UiBase` the probe reports free. */
  ghost predicate IsLeastFree(available: Port -> bool, ui: int)
  {
    && UiBase <= ui <= MaxPort
    && available(ui)
    && forall p: Port :: UiBase <= p < ui ==> !available(p)
  }

  /** Reference definition of the scan: the first port from `from` up to
      `MaxPort` that the probe reports free, or None if there is none. */
  function FirstFree(available: Port -> bool, from: Port): (r: Option<Port>)
    ensures r.Some? ==> from <= r.value && available(r.value)
    ensures r.Some? ==> forall p: Port :: from <= p < r.value ==> !available(p)
    ensures r.None? ==> forall p: Port :: from <= p ==> !available(p)
    decreases MaxPort - from
  {
    if available(from) then Some(from)
    else if from == MaxPort then None
    else FirstFree(available, from + 1)
  }

  /** The smallest free port is unique, so the reference scan finds it. */
  lemma LeastFreeIsFirstFree(available: Port -> bool, ui: int)
    requires IsLeastFree(available, ui)
    ensures FirstFree(available, UiBase) == Some(ui)
  {
    var r := FirstFree(available, UiBase);
    assert available(ui);
  }

  /** The scan of pkg/docker/create.go:51-64: probe 8006, 8007, ... and stop
      at the first port the probe reports free. The loop has no bound of its
      own; the requires says a free port exists, which is what makes it end. */
  method ScanUiPort(available: Port -> bool) returns (ui: Port)
    requires HasFreeUiPort(available)
    ensures IsLeastFree(available, ui)
    ensures FirstFree(available, UiBase) == Some(ui)
  {
    ghost var free: Port :| UiBase <= free && available(free);
    var port: Port := UiBase;
    while !available(port)
      invariant UiBase <= port <= free
      invariant forall p: Port :: UiBase <= p < port ==> !available(p)
      decreases free - port
    {
      port := port + 1;
    }
    ui := port;
    LeastFreeIsFirstFree(available, ui);
  }

  /** The scan as written: the counter is an `int`, the probe is asked about
      `uint16(counter)`, and the counter itself is what the binding records.
      Its result is the least counter whose 16-bit wrap is reported free. */
  ghost predicate IsWrappedScanResult(available: Port -> bool, counter: int)
  {
    && UiBase <= counter
    && available(Wrap16(counter))
    && forall n: int :: UiBase <= n < counter ==> !available(Wrap16(n))
  }

  method ScanUiPortAsWritten(available: Port -> bool, ghost bound: int) returns (counter: int)
    requires UiBase <= bound && available(Wrap16(bound))
    ensures IsWrappedScanResult(available, counter)
  {
    counter := UiBase;
    while !available(Wrap16(counter))
      invariant UiBase <= counter <= bound
      invariant forall n: int :: UiBase <= n < counter ==> !available(Wrap16(n))
      decreases bound - counter
    {
      counter := counter + 1;
    }
  }

  /** When every port from 8006 to 65535 is busy, any result of the scan as
      written is a counter past 65535 whose 16-bit wrap was free, and the
      binding records that counter, which is not a port. If port 0 is free
      the counter is 65536. */
  lemma WrappedScanRecordsNonPort(available: Port -> bool, counter: int)
    requires forall p: Port :: UiBase <= p ==> !available(p)
    requires IsWrappedScanResult(available, counter)
    ensures counter > MaxPort
    ensures ParseDecimal(DecimalString(counter)) > MaxPort
    ensures available(0) ==> counter == MaxPort + 1
  {
    assert counter <= MaxPort ==> Wrap16(counter) == counter;
    assert Wrap16(MaxPort + 1) == 0;
    ParseDecimalRoundTrip(counter);
  }

  /** Whenever a real port at or above 8006 is free, the scan as written and
      the corrected scan agree: the wrap-around is never reached. */
  lemma WrappedScanAgreesWhenPortFree(available: Port -> bool, counter: int)
    requires HasFreeUiPort(available)
    requires IsWrappedScanResult(available, counter)
    ensures IsLeastFree(available, counter)
  {
    var free: Port :| UiBase <= free && available(free);
    assert Wrap16(free) == free;
    assert counter <= free;
    assert Wrap16(counter) == counter;
    forall p: Port | UiBase <= p < counter
      ensures !available(p)
    {
      assert Wrap16(p) == p;
    }
  }

  // ---------------------------------------------------------------------------
  // The port-binding table

  /** One `nat.PortBinding`: the host address and the host port as text. */
  datatype HostBinding = HostBinding(hostIp: string, hostPort: string)

  /** `nat.PortMap`: container port ("22/tcp") to its host bindings. */
  type PortMap = map<string, seq<HostBinding>>

  const AnyHost := "0.0.0.0"
  const SshPort := "22/tcp"
  const GuestSshPort := "2222/tcp"
  const UiPort := "8006/tcp"
  const ToolboxPort := "2280/tcp"

  function Bind(hostPort: nat): seq<HostBinding>
  {
    [HostBinding(AnyHost, DecimalString(hostPort))]
  }

  /** The table pkg/docker/create.go:37-79 leaves behind, given the scanned UI
      port and the toolbox port it obtained, if any. */
  function PortBindingTable(ui: Port, toolbox: Option<Port>): (t: PortMap)
    ensures t.Keys == {SshPort, GuestSshPort, UiPort} + (if toolbox.Some? then {ToolboxPort} else {})
    ensures ToolboxPort in t <==> toolbox.Some?
    ensures t[SshPort] == [HostBinding(AnyHost, "10022")]
    ensures t[GuestSshPort] == [HostBinding(AnyHost, "2222")]
    ensures t[UiPort] == Bind(ui) && ParseDecimal(t[UiPort][0].hostPort) == ui
    ensures toolbox.Some? ==> |t[ToolboxPort]| == 1 && ParseDecimal(t[ToolboxPort][0].hostPort) == toolbox.value
  {
    ParseDecimalRoundTrip(ui);
    var fixed := map[SshPort := [HostBinding(AnyHost, "10022")],
                     GuestSshPort := [HostBinding(AnyHost, "2222")],
                     UiPort := Bind(ui)];
    if toolbox.Some? then
      ParseDecimalRoundTrip(toolbox.value);
      fixed[ToolboxPort := Bind(toolbox.value)]
    else fixed
  }

  /** The toolbox port the binding step ends with: only a local target asks
      for an ephemeral port, and a failed request leaves none. */
  function ToolboxHostPort(isLocal: bool, ephemeral: Result<Port>): (r: Option<Port>)
    ensures r.Some? <==> isLocal && ephemeral.Ok?
    ensures r.Some? ==> r.value == ephemeral.value
  {
    if isLocal && ephemeral.Ok? then Some(ephemeral.value) else None
  }

  /** Builds the binding map in place, as pkg/docker/create.go:37-79 does:
      two fixed bindings, the scanned UI port, and for a local target the
      ephemeral toolbox port unless allocating it failed (the failure is only
      logged). `ephemeral` is what `GetAvailableEphemeralPort` would answer. */
  method BuildPortBindings(available: Port -> bool, isLocal: bool, ephemeral: Result<Port>)
    returns (bindings: PortMap, ui: Port, toolbox: Option<Port>)
    requires HasFreeUiPort(available)
    ensures IsLeastFree(available, ui)
    ensures toolbox == ToolboxHostPort(isLocal, ephemeral)
    ensures bindings == PortBindingTable(ui, toolbox)
  {
    bindings := map[];
    bindings := bindings[SshPort := [HostBinding(AnyHost, "10022")]];
    bindings := bindings[GuestSshPort := [HostBinding(AnyHost, "2222")]];
    ui := ScanUiPort(available);
    bindings := bindings[UiPort := Bind(ui)];
    toolbox := None;
    if isLocal {
      match ephemeral
      case Err(_) =>
      case Ok(p) =>
        toolbox := Some(p);
        bindings := bindings[ToolboxPort := Bind(p)];
    }
  }

  /** Two bindings can share a host port: when 8006..10021 are busy and
      10022 is free, the scan lands on 10022, the host port of the fixed SSH
      binding. */
  lemma UiPortCanMeetSshHostPort(available: Port -> bool, ui: int)
    requires forall p: Port :: UiBase <= p < 10022 ==> !available(p)
    requires available(10022)
    requires IsLeastFree(available, ui)
    ensures ui == 10022
    ensures PortBindingTable(ui, None)[UiPort] == PortBindingTable(ui, None)[SshPort]
  {
    SshHostPortDigits();
  }

  lemma SshHostPortDigits()
    ensures DecimalString(10022) == "10022"
  {
    assert DecimalString(1) == "1";
    assert DecimalString(10) == "10";
    assert DecimalString(100) == "100";
    assert DecimalString(1002) == "1002";
  }
}
