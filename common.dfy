/**
 * Values shared by the console's pages: the optional and error-carrying wrappers,
 * the agent picked in the agent selector, the firewall rules an agent reports, and
 * the commands the pages send to an agent over the socket.
 */
module Common {

  /** JavaScript's `null`/`undefined` next to a present value. */
  datatype Option<+T> = None | Some(value: T) {
    function GetOr(default: T): T {
      match this
      case Some(v) => v
      case None => default
    }
  }

  /** The outcome of an operation that throws or reports an error message. */
  datatype Result<+T, +E> = Ok(value: T) | Err(error: E)

  /**
   * The agent chosen in the agent selector. `firewallEnabled` is the agent's
   * `firewall_enabled` flag, which may be missing (`null` or `undefined`).
   */
  datatype Agent = Agent(id: int, name: string, firewallEnabled: Option<bool>)

  /** A firewall rule as an agent reports it in a `firewall_rules` message. */
  datatype FirewallRule = FirewallRule(id: string, action: string, to: string, from: string)

  /** A command sent to an agent; the constructor is the command's type. */
  datatype Command =
    | ToggleFirewall(agentId: int, enabled: bool)
    | AddFirewallRule(agentId: int, rule: string, action: string, from: string)
    | DeleteFirewallRule(agentId: int, index: string)
    | ScanCommonPorts(agentId: int, ip: string)

  /** JavaScript truthiness of an optional string: absent and empty are both falsy. */
  predicate Truthy(s: Option<string>) {
    s.Some? && s.value != ""
  }
}
