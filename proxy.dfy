/**
 * The user-space proxy (pkg/proxy/proxy.go): the lookup tables built once
 * from the configuration, the recovery of a connection's original port
 * from its local address, and the bounded replay loop that picks a backend
 * round-robin and retries on a failed resolve or dial.
 */
module BpfProxy {
  import opened Wrappers
  import opened Ints
  import opened ProxyConfig
  import opened Lb
  import opened AddressText

  /** `maxReplayCount` as `New` sets it. */
  const MAX_REPLAY_COUNT: nat := 5
  /** `timeout` as `New` sets it: 45 seconds, as a Go time.Duration in nanoseconds. */
  const SESSION_TIMEOUT: nat := 45 * 1_000_000_000

  /**
   * The port-to-app table that `constructLookupTables` fills: apps in order,
   * each mapping all its ports to its name, so a later app overwrites an
   * earlier one on a shared port.
   */
  function PortTable(apps: seq<App>): map<int, string>
  {
    if apps == [] then map[]
    else
      var last := apps[|apps| - 1];
      PortTable(apps[..|apps| - 1]) + OwnerMap(last.ports, last.name)
  }

  /** Each of the given ports mapped to one app name. */
  function OwnerMap(ports: seq<int>, name: string): map<int, string>
  {
    map p | p in ports :: name
  }

  /** The target list each app name's balancer is built with; a later app with the same name wins. */
  function TargetsTable(apps: seq<App>): map<string, seq<string>>
  {
    if apps == [] then map[]
    else
      var last := apps[|apps| - 1];
      TargetsTable(apps[..|apps| - 1])[last.name := last.targets]
  }

  /** The port list handed to the steering layer: every entry converted with Go's `uint16(...)`. */
  function SteeredPorts(s: seq<int>): seq<uint16>
  {
    seq(|s|, i requires 0 <= i < |s| => ToUint16(s[i]))
  }

  /** One more app extends each table by that app's entries. */
  lemma TablesSnoc(done: seq<App>, app: App)
    ensures PortTable(done + [app]) == PortTable(done) + OwnerMap(app.ports, app.name)
    ensures TargetsTable(done + [app]) == TargetsTable(done)[app.name := app.targets]
    ensures AllPorts(done + [app]) == AllPorts(done) + app.ports
  {
    assert (done + [app])[..|done|] == done;
  }

  /** Converting a concatenation converts each part. */
  lemma SteeredPortsAppend(a: seq<int>, b: seq<int>)
    ensures SteeredPorts(a + b) == SteeredPorts(a) + SteeredPorts(b)
  {
  }

  /** Mapping the ports of a prefix, then one more port, to an app's name. */
  lemma OwnerMapSnoc(seen: seq<int>, port: int, name: string)
    ensures OwnerMap(seen + [port], name) == OwnerMap(seen, name)[port := name]
  {
  }

  /** One distinct balancer per name of the table, holding that name's targets. */
  ghost predicate BalancersFor(lb: map<string, LoadBalancer>, table: map<string, seq<string>>)
  {
    && lb.Keys == table.Keys
    && (forall name :: name in lb ==> lb[name].targets == table[name])
    && (forall a, b :: a in lb && b in lb && a != b ==> lb[a] != lb[b])
  }

  /** Registering a new balancer under a name keeps one distinct balancer per name. */
  lemma BalancersForAdd(lb: map<string, LoadBalancer>, table: map<string, seq<string>>, name: string, b: LoadBalancer)
    requires BalancersFor(lb, table) && b !in lb.Values
    ensures BalancersFor(lb[name := b], table[name := b.targets])
  {
  }

  /** The ports with an entry in the port table are exactly the configured ones. */
  lemma {:induction false} PortTableDomain(apps: seq<App>, p: int)
    ensures p in PortTable(apps) <==> p in AllPorts(apps)
  {
    if apps != [] {
      PortTableDomain(apps[..|apps| - 1], p);
    }
  }

  /** A port maps to the name of the last app that lists it. */
  lemma {:induction false} PortTableLastWins(apps: seq<App>, i: nat, p: int)
    requires i < |apps| && p in apps[i].ports
    requires forall j :: i < j < |apps| ==> p !in apps[j].ports
    ensures p in PortTable(apps) && PortTable(apps)[p] == apps[i].name
  {
    if i < |apps| - 1 {
      PortTableLastWins(apps[..|apps| - 1], i, p);
    }
  }

  /** In a configuration that validates, a port maps to the one app that lists it. */
  lemma ValidatedPortOwner(apps: seq<App>, i: nat, p: int)
    requires Distinct(AllPorts(apps))
    requires i < |apps| && p in apps[i].ports
    ensures p in PortTable(apps) && PortTable(apps)[p] == apps[i].name
  {
    forall j | i < j < |apps|
      ensures p !in apps[j].ports
    {
      ValidatedPortHasOneOwner(apps, i, j, p);
    }
    PortTableLastWins(apps, i, p);
  }

  /** Every app named by the port table has a balancer. */
  lemma {:induction false} PortTableNamesHaveBalancers(apps: seq<App>, p: int)
    requires p in PortTable(apps)
    ensures PortTable(apps)[p] in TargetsTable(apps)
  {
    var init := apps[..|apps| - 1];
    if p !in apps[|apps| - 1].ports {
      PortTableNamesHaveBalancers(init, p);
    }
  }

  /** The balancer names are exactly the app names. */
  lemma {:induction false} TargetsTableDomain(apps: seq<App>, name: string)
    ensures name in TargetsTable(apps) <==> exists i :: 0 <= i < |apps| && apps[i].name == name
  {
    if apps != [] {
      var init := apps[..|apps| - 1];
      TargetsTableDomain(init, name);
      if name in TargetsTable(init) {
        var i :| 0 <= i < |init| && init[i].name == name;
        assert apps[i].name == name;
      }
    }
  }

  /** An app's balancer holds that app's targets unless a later app reuses the name. */
  lemma {:induction false} TargetsTableLastWins(apps: seq<App>, i: nat)
    requires i < |apps|
    requires forall j :: i < j < |apps| ==> apps[j].name != apps[i].name
    ensures apps[i].name in TargetsTable(apps) && TargetsTable(apps)[apps[i].name] == apps[i].targets
  {
    if i < |apps| - 1 {
      TargetsTableLastWins(apps[..|apps| - 1], i);
    }
  }

  /**
   * When every port lies in 0..65535, a configuration that validates yields
   * a steered port list without duplicates.
   */
  lemma ValidatedSteeredPortsDistinct(s: seq<int>)
    requires Distinct(s)
    requires forall i :: 0 <= i < |s| ==> 0 <= s[i] < 0x1_0000
    ensures Distinct(SteeredPorts(s))
  {
  }

  /**
   * Validation compares the int values but the steered list keeps only their
   * low 16 bits: ports 80 and 65616 pass validation and reach the steering
   * layer as the same port twice.
   */
  lemma OutOfRangePortsCollide()
    ensures var apps := [App("a", [80], []), App("b", [65616], [])];
      Distinct(AllPorts(apps)) && !Distinct(SteeredPorts(AllPorts(apps)))
  {
    var apps := [App("a", [80], []), App("b", [65616], [])];
    assert apps[..1] == [apps[0]];
    assert AllPorts(apps) == [80, 65616];
    assert SteeredPorts(AllPorts(apps))[0] == SteeredPorts(AllPorts(apps))[1];
  }

  /** `getPortFromAddress`: the text after the last colon, read as a base-10 int. */
  function GetPortFromAddress(address: string): (r: Result<int, NumError>)
    ensures r.Ok? ==> MIN_INT64 <= r.value <= MAX_INT64
  {
    Atoi(LastChunk(address))
  }

  /** The port is read from exactly the text after the address's last colon. */
  lemma PortIsTextAfterLastColon(address: string, i: nat)
    requires i < |address| && address[i] == ':' && ':' !in address[i + 1..]
    ensures GetPortFromAddress(address) == Atoi(address[i + 1..])
  {
    LastChunkAfterLastColon(address);
  }

  /** A TCP address string `host:port` gives back its port, whatever colons the host holds. */
  lemma PortRecoveryRoundTrip(host: string, port: nat)
    requires port <= MAX_INT64
    ensures GetPortFromAddress(host + [':'] + Decimal(port)) == Ok(port)
  {
    LastChunkAfterColon(host, Decimal(port));
    AtoiDecimal(port);
  }

  /** For instance the local address "127.0.0.1:8001" recovers port 8001. */
  lemma PortRecoveryExample()
    ensures GetPortFromAddress("127.0.0.1:8001") == Ok(8001)
  {
    assert Decimal(8) == "8";
    assert Decimal(80) == "80";
    assert Decimal(800) == "800";
    assert Decimal(8001) == "8001";
    PortRecoveryRoundTrip("127.0.0.1", 8001);
    ExampleAddressSplits();
  }

  /** The example address is its host, a colon and its port. */
  lemma ExampleAddressSplits()
    ensures "127.0.0.1" + [':'] + "8001" == "127.0.0.1:8001"
  {
  }

  /** An address with no colon is parsed whole. */
  lemma NoColonParsedWhole(address: string)
    requires ':' !in address
    ensures GetPortFromAddress(address) == Atoi(address)
  {
  }

  /** How one resolve-and-dial attempt ends; the network decides, so it is an input. */
  datatype DialOutcome = ResolveFailed | DialFailed | Connected

  /** How a session's selection phase ends. */
  datatype SessionEnd =
    | PortRecoveryFailed
    | ReplayExhausted(replayCount: nat)
    | Relaying(target: string, replayCount: nat)

  /** The index of the first attempt that connects, or `max` when none of the first `max` does. */
  function FirstConnected(outcomes: seq<DialOutcome>, max: nat): (k: nat)
    requires max <= |outcomes|
    ensures k <= max
    ensures forall j :: 0 <= j < k ==> !outcomes[j].Connected?
    ensures k < max ==> outcomes[k].Connected?
  {
    if max == 0 || outcomes[0].Connected? then 0
    else 1 + FirstConnected(outcomes[1..], max - 1)
  }

  /** How many selection-and-dial attempts a session makes: never more than `max`. */
  function Attempts(outcomes: seq<DialOutcome>, max: nat): (n: nat)
    requires max <= |outcomes|
    ensures n <= max
    ensures n == max <==> forall j :: 0 <= j < max - 1 ==> !outcomes[j].Connected?
  {
    var k := FirstConnected(outcomes, max);
    if k < max then k + 1 else max
  }

  /** Success on attempt k (counting from 1) after k - 1 failures leaves replayCount at k - 1. */
  lemma FourFailuresThenSuccess()
    ensures FirstConnected([DialFailed, ResolveFailed, DialFailed, DialFailed, Connected], MAX_REPLAY_COUNT) == 4
  {
  }

  /** Five failed attempts exhaust the budget; no sixth attempt is made. */
  lemma FiveFailuresAbort(outcomes: seq<DialOutcome>)
    requires |outcomes| >= MAX_REPLAY_COUNT
    requires forall j :: 0 <= j < MAX_REPLAY_COUNT ==> !outcomes[j].Connected?
    ensures FirstConnected(outcomes, MAX_REPLAY_COUNT) == MAX_REPLAY_COUNT
    ensures Attempts(outcomes, MAX_REPLAY_COUNT) == MAX_REPLAY_COUNT
  {
  }

  /** The app a port routes to: Go's map lookup yields "" for a port with no entry. */
  function RouteApp(portToApp: map<int, string>, port: int): (app: string)
    ensures port in portToApp ==> app == portToApp[port]
    ensures port !in portToApp ==> app == ""
  {
    if port in portToApp then portToApp[port] else ""
  }

  /**
   * Routing through the tables of an app list: a port no app lists routes
   * to "", and a listed port routes to an app name that has a balancer.
   */
  lemma RouteThroughTables(apps: seq<App>, port: int)
    ensures port !in AllPorts(apps) ==> RouteApp(PortTable(apps), port) == ""
    ensures port in AllPorts(apps) ==> RouteApp(PortTable(apps), port) in TargetsTable(apps)
  {
    PortTableDomain(apps, port);
    if port in PortTable(apps) {
      PortTableNamesHaveBalancers(apps, port);
    }
  }

  /**
   * The inner loop of `constructLookupTables`: each of the app's ports, in
   * order, mapped to the app's name and appended, as uint16, to the steered
   * port list.
   */
  method RegisterPorts(table: map<int, string>, steered: seq<uint16>, app: App)
    returns (table': map<int, string>, steered': seq<uint16>)
    ensures table' == table + OwnerMap(app.ports, app.name)
    ensures steered' == steered + SteeredPorts(app.ports)
  {
    table', steered' := table, steered;
    ghost var seen: seq<int> := [];
    for j := 0 to |app.ports|
      invariant seen == app.ports[..j]
      invariant table' == table + OwnerMap(seen, app.name)
      invariant steered' == steered + SteeredPorts(seen)
    {
      var port := app.ports[j];
      OwnerMapSnoc(seen, port, app.name);
      assert SteeredPorts(seen + [port]) == SteeredPorts(seen) + [ToUint16(port)];
      table' := table'[port := app.name];
      steered' := steered' + [ToUint16(port)];
      seen := seen + [port];
    }
    assert seen == app.ports;
  }

  class Proxy {
    var loadbalancer: map<string, LoadBalancer>
    var portToApp: map<int, string>
    const timeout: nat
    var ports: seq<uint16>
    const port: int
    const maxReplayCount: nat
    /** The app list the tables were built from. */
    ghost var apps: seq<App>

    /** The tables are those built from `apps`, with one distinct balancer per app name. */
    ghost predicate Valid()
      reads this
    {
      && portToApp == PortTable(apps)
      && ports == SteeredPorts(AllPorts(apps))
      && BalancersFor(loadbalancer, TargetsTable(apps))
    }

    /**
     * `New`: the default timeout and replay budget, then the lookup tables.
     * Opening the listening socket is not part of this model.
     */
    constructor New(cfg: Config, port: int)
      ensures this.port == port && timeout == SESSION_TIMEOUT && maxReplayCount == MAX_REPLAY_COUNT
      ensures apps == cfg.apps && Valid()
      ensures forall name :: name in loadbalancer ==> fresh(loadbalancer[name]) && loadbalancer[name].next == 0
    {
      this.port := port;
      timeout := SESSION_TIMEOUT;
      maxReplayCount := MAX_REPLAY_COUNT;
      loadbalancer, portToApp, ports, apps := map[], map[], [], [];
      new;
      ConstructLookupTables(cfg.apps);
    }

    /**
     * `constructLookupTables`: for each app in order, a fresh balancer over
     * its targets under its name, then each of its ports mapped to its name
     * and appended, as uint16, to the steered port list.
     */
    method ConstructLookupTables(apps: seq<App>)
      modifies this
      ensures this.apps == apps && Valid()
      ensures forall name :: name in loadbalancer ==> fresh(loadbalancer[name]) && loadbalancer[name].next == 0
    {
      var lb: map<string, LoadBalancer> := map[];
      var portToApp: map<int, string> := map[];
      var ports: seq<uint16> := [];
      ghost var done: seq<App> := [];
      for i := 0 to |apps|
        invariant done == apps[..i]
        invariant portToApp == PortTable(done)
        invariant ports == SteeredPorts(AllPorts(done))
        invariant BalancersFor(lb, TargetsTable(done))
        invariant forall name :: name in lb ==> fresh(lb[name]) && lb[name].next == 0
      {
        var app := apps[i];
        var balancer := new LoadBalancer(app.targets);
        BalancersForAdd(lb, TargetsTable(done), app.name, balancer);
        lb := lb[app.name := balancer];
        portToApp, ports := RegisterPorts(portToApp, ports, app);
        SteeredPortsAppend(AllPorts(done), app.ports);
        TablesSnoc(done, app);
        done := done + [app];
      }
      assert done == apps;
      this.loadbalancer := lb;
      this.ports := ports;
      this.portToApp := portToApp;
      this.apps := apps;
    }

    /** `GetPorts`: the steered port list, every configured port in order as uint16. */
    method GetPorts() returns (r: seq<uint16>)
      requires Valid()
      ensures r == SteeredPorts(AllPorts(apps))
    {
      r := ports;
    }

    /**
     * What the source needs for a session not to panic: the recovered port's
     * app (or "" for a port with no entry) has a balancer, with targets, whose
     * counter stays non-negative over the attempts the session makes.
     */
    ghost predicate CanRoute(address: string, outcomes: seq<DialOutcome>)
      reads this, loadbalancer.Values
      requires maxReplayCount <= |outcomes|
    {
      GetPortFromAddress(address).Ok? ==>
        var app := RouteApp(portToApp, GetPortFromAddress(address).value);
        && app in loadbalancer
        && |loadbalancer[app].targets| > 0
        && 0 <= loadbalancer[app].next as int
        && loadbalancer[app].next as int + Attempts(outcomes, maxReplayCount) - 1 <= MAX_INT32
    }

    /**
     * The selection phase of `_proxy`: recover the port; then, until the
     * replay budget is spent, pick the next target of the port's app and
     * try it, bumping `replayCount` on a failed resolve or dial. Attempt i
     * ends as `outcomes[i]`; `tried` records the targets picked.
     */
    method Session(address: string, outcomes: seq<DialOutcome>) returns (end: SessionEnd, ghost tried: seq<string>)
      requires Valid()
      requires maxReplayCount <= |outcomes|
      requires CanRoute(address, outcomes)
      modifies loadbalancer.Values
      ensures Valid()
      ensures GetPortFromAddress(address).Err? ==>
        && end == PortRecoveryFailed && tried == []
        && forall name :: name in loadbalancer ==> loadbalancer[name].next == old(loadbalancer[name].next)
      ensures GetPortFromAddress(address).Ok? ==>
        var lb := loadbalancer[RouteApp(portToApp, GetPortFromAddress(address).value)];
        var k := FirstConnected(outcomes, maxReplayCount);
        var attempts := Attempts(outcomes, maxReplayCount);
        && tried == RoundRobin(lb.targets, old(lb.next) as nat, attempts)
        && lb.next == WrapInt32(old(lb.next) as int + attempts)
        && end == (if k < maxReplayCount then Relaying(tried[k], k) else ReplayExhausted(maxReplayCount))
        && forall name :: name in loadbalancer && loadbalancer[name] != lb ==>
             loadbalancer[name].next == old(loadbalancer[name].next)
    {
      tried := [];
      var recovered := GetPortFromAddress(address);
      if recovered.Err? {
        return PortRecoveryFailed, tried;
      }
      var port := recovered.value;
      ghost var lb := loadbalancer[RouteApp(portToApp, port)];
      ghost var start := lb.next as nat;
      ghost var attempts := Attempts(outcomes, maxReplayCount);
      assert start + attempts - 1 <= MAX_INT32;
      var replayCount := 0;
      while true
        invariant 0 <= replayCount <= maxReplayCount
        invariant |lb.targets| > 0
        invariant replayCount <= FirstConnected(outcomes, maxReplayCount)
        invariant tried == RoundRobin(lb.targets, start, replayCount)
        invariant lb.next as int == if start + replayCount <= MAX_INT32 then start + replayCount else MIN_INT32
        invariant Valid()
        invariant forall name :: name in loadbalancer && loadbalancer[name] != lb ==>
          loadbalancer[name].next == old(loadbalancer[name].next)
        decreases maxReplayCount - replayCount
      {
        if replayCount == maxReplayCount {
          assert FirstConnected(outcomes, maxReplayCount) == maxReplayCount;
          assert attempts == replayCount;
          return ReplayExhausted(replayCount), tried;
        }
        var app := RouteApp(portToApp, port);
        assert attempts >= replayCount + 1;
        assert loadbalancer[app] == lb;
        assert start + replayCount <= MAX_INT32;
        var target := loadbalancer[app].GetNextTarget();
        RoundRobinSnoc(lb.targets, start, replayCount);
        tried := tried + [target];
        match outcomes[replayCount]
        case ResolveFailed =>
          replayCount := replayCount + 1;
        case DialFailed =>
          replayCount := replayCount + 1;
        case Connected =>
          assert FirstConnected(outcomes, maxReplayCount) == replayCount;
          assert attempts == replayCount + 1;
          assert tried == RoundRobin(lb.targets, start, attempts);
          return Relaying(target, replayCount), tried;
      }
    }
  }
}
