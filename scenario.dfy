/**
 * A worked run of the user-space proxy: one app listening on two ports,
 * three connections that each connect on the first try.
 */
module Scenario {
  import opened Wrappers
  import opened ProxyConfig
  import opened Lb
  import opened AddressText
  import opened BpfProxy

  /** The address of a connection to the given local port. */
  function LocalAddress(port: nat): string
  {
    "127.0.0.1" + [':'] + Decimal(port)
  }

  /** A single selection from counter c picks the target at c mod L. */
  lemma OneSelection(targets: seq<string>, c: nat)
    requires |targets| > 0
    ensures RoundRobin(targets, c, 1) == [targets[c % |targets|]]
  {
  }

  /** The two backends of the worked run's app. */
  function WebBackends(): seq<string>
  {
    ["127.0.0.1:9001", "127.0.0.1:9002"]
  }

  /** The one-app configuration of the worked run: "web" on ports 8001 and 8002, two backends. */
  function WebConfig(): Config
  {
    Config([App("web", [8001, 8002], WebBackends())])
  }

  /** The tables `New` builds for the worked run's configuration. */
  lemma WebTables()
    ensures PortTable(WebConfig().apps) == OwnerMap([8001, 8002], "web")
    ensures TargetsTable(WebConfig().apps) == map["web" := WebBackends()]
  {
    var web := WebConfig().apps[0];
    TablesSnoc([], web);
    assert [] + [web] == [web];
  }

  /** Both local addresses of the worked run recover their port, and the port routes to "web". */
  lemma WebRoutes(portToApp: map<int, string>)
    requires portToApp == OwnerMap([8001, 8002], "web")
    ensures GetPortFromAddress(LocalAddress(8001)) == Ok(8001)
    ensures GetPortFromAddress(LocalAddress(8002)) == Ok(8002)
    ensures RouteApp(portToApp, 8001) == "web" && RouteApp(portToApp, 8002) == "web"
  {
    PortRecoveryRoundTrip("127.0.0.1", 8001);
    PortRecoveryRoundTrip("127.0.0.1", 8002);
  }

  /**
   * One connection of the worked run, to an address whose port routes to
   * "web", that connects on the first try: it relays to the backend the
   * app's shared counter points at, and advances that counter by one.
   */
  method ConnectOnce(proxy: Proxy, address: string) returns (end: SessionEnd)
    requires GetPortFromAddress(address).Ok?
    requires RouteApp(proxy.portToApp, GetPortFromAddress(address).value) == "web"
    requires proxy.Valid() && proxy.maxReplayCount == MAX_REPLAY_COUNT
    requires "web" in proxy.loadbalancer && proxy.loadbalancer["web"].targets == WebBackends()
    requires 0 <= proxy.loadbalancer["web"].next <= 2
    modifies proxy.loadbalancer.Values
    ensures proxy.Valid()
    ensures end == Relaying(WebBackends()[old(proxy.loadbalancer["web"].next) as int % 2], 0)
    ensures proxy.loadbalancer["web"].next == old(proxy.loadbalancer["web"].next) + 1
  {
    var firstTry := [Connected, Connected, Connected, Connected, Connected];
    assert FirstConnected(firstTry, MAX_REPLAY_COUNT) == 0;
    assert Attempts(firstTry, MAX_REPLAY_COUNT) == 1;
    ghost var lb := proxy.loadbalancer["web"];
    ghost var tried;
    end, tried := proxy.Session(address, firstTry);
    OneSelection(WebBackends(), old(lb.next) as nat);
    assert tried == [WebBackends()[old(lb.next) as int % 2]];
  }

  /**
   * Connections to 8001, 8002 and 8001 again, with an app "web" serving both
   * ports from two backends: the balancer belongs to the app, not to the
   * port, so the three sessions relay to the first backend, the second, and
   * the first again.
   */
  method ThreeConnectionsToWeb() returns (ends: seq<SessionEnd>)
    ensures ends == [Relaying("127.0.0.1:9001", 0), Relaying("127.0.0.1:9002", 0), Relaying("127.0.0.1:9001", 0)]
  {
    var proxy := new Proxy.New(WebConfig(), 8080);
    WebTables();
    WebRoutes(proxy.portToApp);
    var end1 := ConnectOnce(proxy, LocalAddress(8001));
    var end2 := ConnectOnce(proxy, LocalAddress(8002));
    var end3 := ConnectOnce(proxy, LocalAddress(8001));
    ends := [end1, end2, end3];
  }
}
