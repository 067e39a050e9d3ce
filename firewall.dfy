/**
 * The firewall page: shows whether the selected agent's firewall is on, lets the
 * user toggle it, and builds add/delete rule commands from a small form. Commands
 * go to the agent over the socket; here every command sent is appended to `outbox`.
 */
module Firewall {
  import opened Common

  datatype RuleAction = Allow | Deny
  datatype Protocol = Tcp | Udp

  function ActionName(a: RuleAction): string {
    match a
    case Allow => "allow"
    case Deny => "deny"
  }

  function ProtocolName(p: Protocol): string {
    match p
    case Tcp => "tcp"
    case Udp => "udp"
  }

  /** The `port/protocol` rule text of an add-rule command. */
  function RuleString(port: string, protocol: Protocol): (rule: string)
    ensures |rule| == |port| + 4
    ensures rule[..|port|] == port && rule[|port|] == '/'
    ensures rule[|port| + 1..] == ProtocolName(protocol)
  {
    port + "/" + ProtocolName(protocol)
  }

  /** A reference parser for the `port/protocol` rule text, the partner of the round trip below. */
  function ParseRule(rule: string): Option<(string, Protocol)> {
    if |rule| < 4 || rule[|rule| - 4] != '/' then None
    else
      var port, name := rule[..|rule| - 4], rule[|rule| - 3..];
      if name == "tcp" then Some((port, Tcp))
      else if name == "udp" then Some((port, Udp))
      else None
  }

  /** Every rule text the page builds reads back as the port and protocol it came from. */
  lemma RuleStringRoundTrip(port: string, protocol: Protocol)
    ensures ParseRule(RuleString(port, protocol)) == Some((port, protocol))
  {
  }

  /** The firewall state shown: the agent's flag, off when the flag is missing. */
  function FirewallEnabled(agent: Agent): (enabled: bool)
    ensures enabled <==> agent.firewallEnabled == Some(true)
  {
    agent.firewallEnabled.GetOr(false)
  }

  /** Which of the page's controls can be used. */
  datatype Controls = Controls(
    firewallEnabled: bool,
    toggleEnabled: bool,
    addRuleEnabled: bool,
    removeRuleEnabled: bool)

  /**
   * The page as rendered: without a selected agent only a prompt is shown, so none
   * of the handlers (and no command) is reachable; otherwise the controls.
   */
  function PageControls(selected: Option<Agent>, isConnected: bool, isToggling: bool)
    : (c: Option<Controls>)
    ensures c.None? <==> selected.None?
    ensures c.Some? ==> c.value.firewallEnabled == FirewallEnabled(selected.value)
    ensures c.Some? ==> (c.value.toggleEnabled <==> isConnected && !isToggling)
    ensures c.Some? ==> (c.value.addRuleEnabled <==> isConnected)
    ensures c.Some? ==> (c.value.removeRuleEnabled <==> isConnected)
  {
    match selected
    case None => None
    case Some(agent) =>
      Some(Controls(FirewallEnabled(agent), isConnected && !isToggling, isConnected, isConnected))
  }

  /**
   * The page's own state. The handlers take the selected agent as an `Agent`, not an
   * option: the page defines them only after it has returned early for no agent.
   */
  class FirewallPage {
    var isToggling: bool
    var newRuleAction: RuleAction
    var newRulePort: string
    var newRuleProtocol: Protocol
    var newRuleFrom: string
    var outbox: seq<Command>

    constructor ()
      ensures !isToggling && newRuleAction == Allow && newRulePort == ""
      ensures newRuleProtocol == Tcp && newRuleFrom == "any" && outbox == []
    {
      isToggling := false;
      newRuleAction, newRulePort, newRuleProtocol, newRuleFrom := Allow, "", Tcp, "any";
      outbox := [];
    }

    method SetAction(a: RuleAction)
      modifies this`newRuleAction
      ensures newRuleAction == a
    {
      newRuleAction := a;
    }

    method SetPort(port: string)
      modifies this`newRulePort
      ensures newRulePort == port
    {
      newRulePort := port;
    }

    method SetProtocol(p: Protocol)
      modifies this`newRuleProtocol
      ensures newRuleProtocol == p
    {
      newRuleProtocol := p;
    }

    method SetFrom(from: string)
      modifies this`newRuleFrom
      ensures newRuleFrom == from
    {
      newRuleFrom := from;
    }

    /** Asks the agent for the opposite of the shown state and marks a toggle in flight. */
    method HandleToggleFirewall(agent: Agent)
      modifies this`isToggling, this`outbox
      ensures isToggling
      ensures outbox == old(outbox) + [ToggleFirewall(agent.id, !FirewallEnabled(agent))]
    {
      var newState := !FirewallEnabled(agent);
      isToggling := true;
      outbox := outbox + [ToggleFirewall(agent.id, newState)];
    }

    /** The toggle's three-second timer fires. */
    method OnToggleTimerFired()
      requires isToggling
      modifies this`isToggling
      ensures !isToggling
    {
      isToggling := false;
    }

    /** Submitting the form: nothing happens for an empty port; otherwise the rule is sent and the port cleared. */
    method HandleAddRule(agent: Agent)
      modifies this`newRulePort, this`outbox
      ensures old(newRulePort) == "" ==> newRulePort == "" && outbox == old(outbox)
      ensures old(newRulePort) != "" ==>
        && newRulePort == ""
        && outbox == old(outbox) + [AddFirewallRule(agent.id,
                                                     RuleString(old(newRulePort), newRuleProtocol),
                                                     ActionName(newRuleAction),
                                                     newRuleFrom)]
    {
      if newRulePort == "" {
        return;
      }
      var rule := RuleString(newRulePort, newRuleProtocol);
      outbox := outbox + [AddFirewallRule(agent.id, rule, ActionName(newRuleAction), newRuleFrom)];
      newRulePort := "";
    }

    /** A row's delete button: the command's index is that rule's id. */
    method HandleRemoveRule(agent: Agent, rule: FirewallRule)
      modifies this`outbox
      ensures outbox == old(outbox) + [DeleteFirewallRule(agent.id, rule.id)]
    {
      outbox := outbox + [DeleteFirewallRule(agent.id, rule.id)];
    }
  }
}
