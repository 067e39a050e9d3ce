/**
 * The port-scanning page: validates a scan request, sends `scan_common_ports` to the
 * selected agent, and turns the agent's `scan_results` message into result rows.
 * The 30-second safety timer is an explicit event. Scans are numbered from 1 as
 * they start, and each armed timer carries the number of the scan that armed it.
 */
module PortScan {
  import opened Common
  import opened Lists

  /** The well-known ports the page can name, with their service names. */
  const WellKnownServices: map<int, string> := map[
    21 := "FTP", 22 := "SSH", 23 := "Telnet", 25 := "SMTP", 53 := "DNS",
    80 := "HTTP", 110 := "POP3", 143 := "IMAP", 443 := "HTTPS", 445 := "SMB",
    993 := "IMAPS", 995 := "POP3S", 1723 := "PPTP", 3306 := "MySQL", 3389 := "RDP",
    5432 := "PostgreSQL", 5900 := "VNC", 8080 := "HTTP-alt", 8443 := "HTTPS-alt"]

  /** `getService`: the table's name for a listed port, `Unknown` for every other port. */
  function GetService(port: int): (name: string)
    ensures port in WellKnownServices ==> name == WellKnownServices[port]
    ensures port !in WellKnownServices ==> name == "Unknown"
  {
    match port
    case 21 => "FTP"
    case 22 => "SSH"
    case 23 => "Telnet"
    case 25 => "SMTP"
    case 53 => "DNS"
    case 80 => "HTTP"
    case 110 => "POP3"
    case 143 => "IMAP"
    case 443 => "HTTPS"
    case 445 => "SMB"
    case 993 => "IMAPS"
    case 995 => "POP3S"
    case 1723 => "PPTP"
    case 3306 => "MySQL"
    case 3389 => "RDP"
    case 5432 => "PostgreSQL"
    case 5900 => "VNC"
    case 8080 => "HTTP-alt"
    case 8443 => "HTTPS-alt"
    case _ => "Unknown"
  }

  /** The named ports, in increasing order. */
  const NamedPorts: seq<int> := [21, 22, 23, 25, 53, 80, 110, 143, 443, 445, 993, 995,
                                 1723, 3306, 3389, 5432, 5900, 8080, 8443]

  /** Exactly nineteen distinct ports have a name. */
  lemma NineteenNamedPorts()
    ensures |NamedPorts| == 19
    ensures forall i, j :: 0 <= i < j < |NamedPorts| ==> NamedPorts[i] < NamedPorts[j]
    ensures forall p :: p in WellKnownServices <==> p in NamedPorts
  {
  }

  /** A listed port never comes out as `Unknown`. */
  lemma NamedPortsAreKnown(port: int)
    requires port in WellKnownServices
    ensures GetService(port) != "Unknown"
  {
  }

  /** One open port as the agent reports it; its service name may be missing. */
  datatype AgentPort = AgentPort(port: int, service: Option<string>)

  datatype PortStatus = Open

  /** One row of the results grid. */
  datatype ScanResult = ScanResult(port: int, status: PortStatus, service: string)

  /** A row: the agent's service name when it gave a non-empty one, else the table's. */
  function ToScanResult(p: AgentPort): (r: ScanResult)
    ensures r.port == p.port && r.status == Open
    ensures Truthy(p.service) ==> r.service == p.service.value
    ensures !Truthy(p.service) ==> r.service == GetService(p.port)
  {
    ScanResult(p.port, Open, if Truthy(p.service) then p.service.value else GetService(p.port))
  }

  /** The rows for an agent's `open_ports`: one per port, in the agent's order. */
  function ToScanResults(ports: seq<AgentPort>): (rows: seq<ScanResult>)
    ensures |rows| == |ports|
    ensures forall i :: 0 <= i < |ports| ==>
      rows[i].port == ports[i].port && rows[i].status == Open
      && rows[i].service == (if Truthy(ports[i].service) then ports[i].service.value
                             else GetService(ports[i].port))
  {
    Map(ToScanResult, ports)
  }

  /** A message from the listener after JSON decoding; `openPorts` may be missing. */
  datatype ScanMessage =
    | Decoded(kind: string, openPorts: Option<seq<AgentPort>>)
    | Malformed

  const ScanResults := "scan_results"
  const ErrNoTarget := "Please enter a target host or IP address."
  const ErrNoAgent := "Please select an agent."
  const ErrNotConnected := "WebSocket not connected. Please wait and try again."
  const ErrNoOpenPorts := "No open ports found."
  const ErrTimeout := "Scan timeout. The agent may be offline or the target is unreachable."

  /** `handleScan`'s checks, in order: target, then agent, then connection. */
  function ValidateScan(target: string, selected: Option<Agent>, isConnected: bool)
    : (r: Result<Agent, string>)
    ensures r == Err(ErrNoTarget) <==> target == ""
    ensures r == Err(ErrNoAgent) <==> target != "" && selected.None?
    ensures r == Err(ErrNotConnected) <==> target != "" && selected.Some? && !isConnected
    ensures r.Ok? <==> target != "" && selected.Some? && isConnected
    ensures r.Ok? ==> selected == Some(r.value)
  {
    if target == "" then Err(ErrNoTarget)
    else if selected.None? then Err(ErrNoAgent)
    else if !isConnected then Err(ErrNotConnected)
    else Ok(selected.value)
  }

  /** The part of the page state that messages and timers change. */
  datatype ScanView = ScanView(isScanning: bool, results: seq<ScanResult>, error: Option<string>)

  /** The listener's effect on the page. */
  function AfterMessage(s: ScanView, m: ScanMessage): (r: ScanView)
    // Messages of other types, and unparsable ones, change nothing.
    ensures !(m.Decoded? && m.kind == ScanResults) ==> r == s
    // A `scan_results` message always stops the spinner ...
    ensures m.Decoded? && m.kind == ScanResults ==> !r.isScanning
    // ... and, when it carries ports, shows their rows; an empty list also sets an error.
    ensures m.Decoded? && m.kind == ScanResults && m.openPorts.Some? ==>
      && r.results == ToScanResults(m.openPorts.value)
      && r.error == if m.openPorts.value == [] then Some(ErrNoOpenPorts) else s.error
    // Without `open_ports` the transform throws after the spinner stopped.
    ensures m.Decoded? && m.kind == ScanResults && m.openPorts.None? ==>
      r.results == s.results && r.error == s.error
  {
    match m
    case Malformed => s
    case Decoded(kind, openPorts) =>
      if kind != ScanResults then s
      else if openPorts.None? then s.(isScanning := false)
      else
        var rows := ToScanResults(openPorts.value);
        ScanView(false, rows, if rows == [] then Some(ErrNoOpenPorts) else s.error)
  }

  /** The timer's effect as written: whatever happened before, stop and show the timeout. */
  function AfterTimeout(s: ScanView): (r: ScanView)
    ensures !r.isScanning && r.error == Some(ErrTimeout) && r.results == s.results
  {
    ScanView(false, s.results, Some(ErrTimeout))
  }

  /** The state right after a scan passes its checks. */
  function Started(): (r: ScanView)
    ensures r.isScanning && r.results == [] && r.error == None
  {
    ScanView(true, [], None)
  }

  /**
   * The timer is never cancelled, so it still fires after the results arrived:
   * a scan that found open ports ends up showing them under the timeout error.
   */
  lemma TimeoutAfterResults(s: ScanView, ports: seq<AgentPort>)
    requires ports != []
    ensures var done := AfterMessage(s, Decoded(ScanResults, Some(ports)));
            && done.error == s.error && |done.results| == |ports|
            && AfterTimeout(done).error == Some(ErrTimeout)
            && AfterTimeout(done).results == done.results
  {
  }

  /**
   * The timer's effect as intended: the timer armed by scan number `armedFor` ends
   * that scan while it is still the latest one, `latest`, and still waiting; in every
   * other case it does nothing.
   */
  function AfterTimeoutIntended(s: ScanView, armedFor: nat, latest: nat): (r: ScanView)
    ensures s.isScanning && armedFor == latest ==>
      !r.isScanning && r.error == Some(ErrTimeout) && r.results == s.results
    ensures !(s.isScanning && armedFor == latest) ==> r == s
  {
    if s.isScanning && armedFor == latest then AfterTimeout(s) else s
  }

  /** With the intended timer, a scan that delivered results keeps its outcome. */
  lemma IntendedTimeoutKeepsResults(s: ScanView, m: ScanMessage, armedFor: nat, latest: nat)
    requires m.Decoded? && m.kind == ScanResults
    ensures AfterTimeoutIntended(AfterMessage(s, m), armedFor, latest) == AfterMessage(s, m)
  {
  }

  /** With the intended timer, an earlier scan's timer leaves a later scan running. */
  lemma IntendedTimeoutSparesLaterScan(armedFor: nat, latest: nat)
    requires armedFor < latest
    ensures AfterTimeoutIntended(Started(), armedFor, latest) == Started()
  {
  }

  class ScanPage {
    var target: string
    var scanResults: seq<ScanResult>
    var isScanning: bool
    var error: Option<string>
    var outbox: seq<Command>
    /** How many scans have started; the latest scan has this number. */
    var scanCount: nat
    /** The armed timers that have not fired yet, each as the number of its scan. */
    var pendingTimers: multiset<nat>

    /** Every armed timer belongs to a scan that has started. */
    predicate TimersValid()
      reads this
    {
      forall t :: t in pendingTimers ==> 1 <= t <= scanCount
    }

    constructor ()
      ensures target == "" && scanResults == [] && !isScanning && error == None
      ensures outbox == [] && scanCount == 0 && pendingTimers == multiset{}
      ensures TimersValid()
    {
      target, scanResults, isScanning, error := "", [], false, None;
      outbox, scanCount, pendingTimers := [], 0, multiset{};
    }

    function View(): ScanView
      reads this
    {
      ScanView(isScanning, scanResults, error)
    }

    method SetTarget(t: string)
      modifies this`target
      ensures target == t
    {
      target := t;
    }

    /**
     * A failed check sets its message and changes nothing else; a scan that passes
     * clears the error, starts the spinner, empties the rows, sends the command and
     * arms the timer.
     */
    method HandleScan(selected: Option<Agent>, isConnected: bool)
      requires TimersValid()
      modifies this`error, this`isScanning, this`scanResults, this`outbox, this`scanCount,
               this`pendingTimers
      ensures TimersValid()
      ensures ValidateScan(target, selected, isConnected).Err? ==>
        && error == Some(ValidateScan(target, selected, isConnected).error)
        && isScanning == old(isScanning) && scanResults == old(scanResults)
        && outbox == old(outbox) && scanCount == old(scanCount)
        && pendingTimers == old(pendingTimers)
      ensures ValidateScan(target, selected, isConnected).Ok? ==>
        && View() == Started()
        && outbox == old(outbox) + [ScanCommonPorts(selected.value.id, target)]
        && scanCount == old(scanCount) + 1
        && pendingTimers == old(pendingTimers) + multiset{scanCount}
    {
      if target == "" {
        error := Some(ErrNoTarget);
        return;
      }
      if selected.None? {
        error := Some(ErrNoAgent);
        return;
      }
      if !isConnected {
        error := Some(ErrNotConnected);
        return;
      }
      error := None;
      isScanning := true;
      scanResults := [];
      outbox := outbox + [ScanCommonPorts(selected.value.id, target)];
      scanCount := scanCount + 1;
      pendingTimers := pendingTimers + multiset{scanCount};
    }

    method HandleMessage(m: ScanMessage)
      modifies this`isScanning, this`scanResults, this`error
      ensures View() == AfterMessage(old(View()), m)
    {
      match m
      case Malformed =>
      case Decoded(kind, openPorts) =>
        if kind == ScanResults {
          isScanning := false;
          if openPorts.Some? {
            var results := ToScanResults(openPorts.value);
            scanResults := results;
            if |results| == 0 {
              error := Some(ErrNoOpenPorts);
            }
          }
        }
    }

    /** The timer armed by scan number `armedFor` fires, as the page is written. */
    method OnScanTimeout(armedFor: nat)
      requires TimersValid() && armedFor in pendingTimers
      modifies this`isScanning, this`error, this`pendingTimers
      ensures TimersValid()
      ensures View() == AfterTimeout(old(View()))
      ensures pendingTimers == old(pendingTimers) - multiset{armedFor}
    {
      isScanning := false;
      error := Some(ErrTimeout);
      pendingTimers := pendingTimers - multiset{armedFor};
    }

    /** The same event with the timer as intended: only the latest, still waiting scan ends. */
    method OnScanTimeoutIntended(armedFor: nat)
      requires TimersValid() && armedFor in pendingTimers
      modifies this`isScanning, this`error, this`pendingTimers
      ensures TimersValid()
      ensures View() == AfterTimeoutIntended(old(View()), armedFor, scanCount)
      ensures pendingTimers == old(pendingTimers) - multiset{armedFor}
    {
      if isScanning && armedFor == scanCount {
        isScanning := false;
        error := Some(ErrTimeout);
      }
      pendingTimers := pendingTimers - multiset{armedFor};
    }
  }

  /**
   * The timer does not know which scan armed it. On one page a first scan gets its
   * result, a second scan starts, and then the first scan's timer ends the second scan.
   */
  method TimeoutEndsLaterScan(agent: Agent, target: string, ports: seq<AgentPort>)
    returns (page: ScanPage)
    requires target != ""
    ensures page.scanCount == 2 && page.pendingTimers == multiset{2}
    ensures !page.isScanning && page.error == Some(ErrTimeout)
  {
    page := new ScanPage();
    page.SetTarget(target);
    page.HandleScan(Some(agent), true);
    page.HandleMessage(Decoded(ScanResults, Some(ports)));
    page.HandleScan(Some(agent), true);
    assert page.isScanning && page.pendingTimers == multiset{1, 2};
    page.OnScanTimeout(1);
  }

  /** The same run with the intended timer: the first scan's timer leaves the second running. */
  method IntendedTimeoutSparesSecondScan(agent: Agent, target: string, ports: seq<AgentPort>)
    returns (page: ScanPage)
    requires target != ""
    ensures page.scanCount == 2 && page.pendingTimers == multiset{2}
    ensures page.isScanning && page.error == None && page.scanResults == []
  {
    page := new ScanPage();
    page.SetTarget(target);
    page.HandleScan(Some(agent), true);
    page.HandleMessage(Decoded(ScanResults, Some(ports)));
    page.HandleScan(Some(agent), true);
    assert page.isScanning && page.pendingTimers == multiset{1, 2};
    page.OnScanTimeoutIntended(1);
  }
}
