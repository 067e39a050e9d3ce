/**
 * The live feed shared by every page: the provider keeps the agent log lines and
 * firewall rules pushed over one WebSocket, and whether that socket is open.
 * Messages arrive already decoded; a payload that fails to parse is `Malformed`.
 * The log payload is left abstract (type parameter `L`): the provider stores it
 * without looking inside.
 */
module LiveFeed {
  import opened Common

  /** A message from the socket, after JSON decoding. */
  datatype FeedMessage<L> =
    | Decoded(kind: string, log: L, data: seq<FirewallRule>)
    | Malformed

  const LogStream := "log_stream"
  const FirewallRules := "firewall_rules"

  /** The state a message handler produces from the current logs and rules. */
  function AfterMessage<L>(logs: seq<L>, rules: seq<FirewallRule>, m: FeedMessage<L>)
    : (r: (seq<L>, seq<FirewallRule>))
    // A log line goes to the front; the earlier lines follow in their order.
    ensures m.Decoded? && m.kind == LogStream ==>
      |r.0| == |logs| + 1 && r.0[0] == m.log && r.0[1..] == logs && r.1 == rules
    // A rule list replaces the rules wholesale and leaves the logs alone.
    ensures m.Decoded? && m.kind == FirewallRules ==> r.0 == logs && r.1 == m.data
    // Anything else, parsed or not, changes nothing.
    ensures !(m.Decoded? && m.kind in {LogStream, FirewallRules}) ==> r == (logs, rules)
  {
    match m
    case Malformed => (logs, rules)
    case Decoded(kind, log, data) =>
      if kind == LogStream then ([log] + logs, rules)
      else if kind == FirewallRules then (logs, data)
      else (logs, rules)
  }

  /** The logs and rules after a run of messages, handled in arrival order. */
  function Replay<L>(logs: seq<L>, rules: seq<FirewallRule>, ms: seq<FeedMessage<L>>)
    : (seq<L>, seq<FirewallRule>)
    decreases |ms|
  {
    if ms == [] then (logs, rules)
    else
      var next := AfterMessage(logs, rules, ms[0]);
      Replay(next.0, next.1, ms[1..])
  }

  /** The number of `log_stream` messages in a run. */
  function LogStreamCount<L>(ms: seq<FeedMessage<L>>): nat {
    if ms == [] then 0
    else (if ms[0].Decoded? && ms[0].kind == LogStream then 1 else 0) + LogStreamCount(ms[1..])
  }

  /**
   * Over any run of messages the log list grows by one per `log_stream` message,
   * and the logs held before the run stay at its end, in their order.
   */
  lemma {:induction false} ReplayKeepsEarlierLogs<L>(logs: seq<L>, rules: seq<FirewallRule>, ms: seq<FeedMessage<L>>)
    ensures var r := Replay(logs, rules, ms).0;
            |r| == |logs| + LogStreamCount(ms) && r[|r| - |logs|..] == logs
    decreases |ms|
  {
    if ms != [] {
      var next := AfterMessage(logs, rules, ms[0]);
      ReplayKeepsEarlierLogs(next.0, next.1, ms[1..]);
      var r := Replay(logs, rules, ms).0;
      assert r == Replay(next.0, next.1, ms[1..]).0;
      if ms[0].Decoded? && ms[0].kind == LogStream {
        assert r[|r| - |next.0|..][1..] == r[|r| - |logs|..];
      }
    }
  }

  /** The socket address: scheme from the page protocol, host, then the user id query. */
  function SocketUrl(pageProtocol: string, isDevelopment: bool, pageHost: string, userId: string)
    : (url: string)
    ensures |url| >= 15 + |userId|
    ensures pageProtocol == "https:" ==> url[..6] == "wss://"
    ensures pageProtocol != "https:" ==> url[..5] == "ws://"
    ensures var start := if pageProtocol == "https:" then 6 else 5;
            var host := if isDevelopment then "localhost:3001" else pageHost;
            && |url| == start + |host| + 10 + |userId|
            && url[start..start + |host|] == host
            && url[start + |host|..] == "/?user_id=" + userId
  {
    var head := if pageProtocol == "https:" then "wss://" else "ws://";
    var host := if isDevelopment then "localhost:3001" else pageHost;
    var tail := "/?user_id=" + userId;
    assert (head + host + tail)[..|head|] == head;
    assert (head + host + tail)[|head|..|head| + |host|] == host;
    assert (head + host + tail)[|head| + |host|..] == tail;
    head + host + tail
  }

  /** Two users on the same page get different socket addresses. */
  lemma SocketUrlInjective(pageProtocol: string, isDevelopment: bool, pageHost: string, u1: string, u2: string)
    requires u1 != u2
    ensures SocketUrl(pageProtocol, isDevelopment, pageHost, u1)
         != SocketUrl(pageProtocol, isDevelopment, pageHost, u2)
  {
    var url1 := SocketUrl(pageProtocol, isDevelopment, pageHost, u1);
    var url2 := SocketUrl(pageProtocol, isDevelopment, pageHost, u2);
    var start := if pageProtocol == "https:" then 6 else 5;
    var host := if isDevelopment then "localhost:3001" else pageHost;
    var k := start + |host| + 10;
    if |u1| == |u2| {
      assert url1[k..] == u1 by { assert url1[start + |host|..][10..] == u1; }
      assert url2[k..] == u2 by { assert url2[start + |host|..][10..] == u2; }
    }
  }

  /** What the provider hands to the pages. */
  datatype ContextValue<L> = ContextValue(logs: seq<L>, firewallRules: seq<FirewallRule>, isConnected: bool)

  const OutsideProviderError := "useWebSocket must be used within a WebSocketProvider"

  /** `useWebSocket`: fails outside a provider, otherwise hands back the provider's value. */
  function UseWebSocket<L>(context: Option<ContextValue<L>>): (r: Result<ContextValue<L>, string>)
    ensures r.Err? <==> context.None?
    ensures r.Err? ==> r.error == OutsideProviderError
    ensures r.Ok? ==> Some(r.value) == context
  {
    match context
    case None => Err(OutsideProviderError)
    case Some(v) => Ok(v)
  }

  class WebSocketProvider<L> {
    var logs: seq<L>
    var firewallRules: seq<FirewallRule>
    var isConnected: bool
    var userId: Option<string>
    /** The address of the socket the connection effect opened, if it opened one. */
    var socketUrl: Option<string>

    constructor ()
      ensures logs == [] && firewallRules == [] && !isConnected
      ensures userId == None && socketUrl == None
    {
      logs, firewallRules, isConnected := [], [], false;
      userId, socketUrl := None, None;
    }

    /**
     * The value the provider hands to `useWebSocket`: its logs, its rules and its
     * connected flag, and nothing else (in particular no `sendCommand`).
     */
    function Value(): (v: ContextValue<L>)
      reads this
      ensures v.logs == logs && v.firewallRules == firewallRules && v.isConnected == isConnected
    {
      ContextValue(logs, firewallRules, isConnected)
    }

    /** Inside the provider the hook succeeds and hands back the provider's current state. */
    lemma HookSeesProvider()
      ensures UseWebSocket(Some(Value())).Ok?
      ensures UseWebSocket(Some(Value())).value.logs == logs
      ensures UseWebSocket(Some(Value())).value.firewallRules == firewallRules
      ensures UseWebSocket(Some(Value())).value.isConnected == isConnected
    {
    }

    /** The signed-in user's id arrives; a missing user leaves the slot as it was. */
    method OnUserLoaded(user: Option<string>)
      modifies this`userId
      ensures userId == if user.Some? then user else old(userId)
    {
      if user.Some? {
        userId := user;
      }
    }

    /** The connection effect: opens a socket only for a non-empty user id. */
    method Connect(pageProtocol: string, isDevelopment: bool, pageHost: string)
      modifies this`socketUrl
      ensures !Truthy(userId) ==> socketUrl == old(socketUrl)
      ensures Truthy(userId) ==>
        socketUrl == Some(SocketUrl(pageProtocol, isDevelopment, pageHost, userId.value))
    {
      if !Truthy(userId) {
        return;
      }
      socketUrl := Some(SocketUrl(pageProtocol, isDevelopment, pageHost, userId.value));
    }

    method OnOpen()
      requires socketUrl.Some?
      modifies this`isConnected
      ensures isConnected
    {
      isConnected := true;
    }

    method OnClose()
      requires socketUrl.Some?
      modifies this`isConnected
      ensures !isConnected
    {
      isConnected := false;
    }

    method OnError()
      requires socketUrl.Some?
      modifies this`isConnected
      ensures !isConnected
    {
      isConnected := false;
    }

    method OnMessage(m: FeedMessage<L>)
      requires socketUrl.Some?
      modifies this`logs, this`firewallRules
      ensures (logs, firewallRules) == AfterMessage(old(logs), old(firewallRules), m)
    {
      match m
      case Malformed =>
      case Decoded(kind, log, data) =>
        if kind == LogStream {
          logs := [log] + logs;
        }
        if kind == FirewallRules {
          firewallRules := data;
        }
    }
  }
}
