# many-ports: routing and selection rules of an eBPF-steered L4 proxy

many-ports is a layer-4 proxy. An eBPF `sk_lookup` program (`steer`) hands
connections for every configured port to one listening socket. The user-space
proxy recovers the original destination port from the connection's local
address. It looks up the app that owns that port and picks one of the app's
backends round-robin. If resolving or dialling the backend fails, it moves on
to the next backend. A session makes at most five attempts in all, so at most
four retries.

This Dafny project models those decisions and proves what they guarantee:

- `lb.dfy` (module `Lb`): the per-app load balancer, a class with a constant
  target list and an `int32` counter. Every selection advances the counter,
  wrapping like Go's `atomic.AddInt32`. The index is taken with Go's
  truncating `%`. The specification function `RoundRobin` describes k
  successive selections. Lemmas prove that L selections are a rotation of
  the target list, that each target comes once, that call L + 1 repeats the
  first, and that a fresh balancer goes in list order.
- `config.dfy` (module `ProxyConfig`): the `App`/`Config` records and
  `validateConfig`. It is a loop over every port with a set of seen values.
  It is proved to fail exactly when some port value occurs twice. Lemmas show
  that the verdict depends only on the multiset of port values, and that in a
  valid configuration each port has one owner.
- `address.dfy` (module `AddressText`): the two library routines that
  `getPortFromAddress` relies on. The first takes the text after the last
  colon, as `strings.Split` followed by taking the last element does. The
  second is `strconv.Atoi`: an optional sign, decimal digits, 64-bit range.
- `proxy.dfy` (module `BpfProxy`): the `Proxy` object.
  - `constructLookupTables` fills the port→app map, the app→balancer map and
    the flat `uint16` port list. Each is tied to a specification function of
    the app list.
  - `getPortFromAddress` is modelled, with a round-trip lemma for `host:port`
    addresses.
  - The replay loop of `_proxy` is a `while` loop. Each resolve/dial outcome
    is an input. The loop calls the real balancer method once per attempt.
- `steer.dfy` (module `Steer`): the kernel-side decision of `steer`. The two
  map lookups and the return code of `bpf_sk_assign` are inputs. There is also
  an end-to-end lemma: the ports the loader seeds from `GetPorts` are exactly
  those the program steers to the proxy's socket.
- `scenario.dfy` (module `Scenario`): one configuration worked end to end.
  One app serves two ports, and three connections relay to backend 1, 2 and
  1 again, because the counter belongs to the app, not to the port.
- `ints.dfy`, `wrappers.dfy`: Go's fixed-width integer conversions and the
  `Option`/`Result` wrappers.

The model follows the Go and C code.

`validateConfig` compares ports as `int`, but the port list handed to the
kernel keeps only the low 16 bits of each (`uint16(port)`). So a configuration
with ports 80 and 65616 validates, yet reaches the steering layer as the same
port twice (`BpfProxy.OutOfRangePortsCollide`). For ports in 0..65535,
validation does guarantee a duplicate-free steered list
(`BpfProxy.ValidatedSteeredPortsDistinct`).

## Model

| member | source | states |
|---|---|---|
| Ints.WrapInt32 | pkg/proxy/lb.go:13 | the int32 result is congruent to the input modulo 2^32, equals it when it fits, and MAX_INT32 + 1 wraps to MIN_INT32 |
| Ints.GoRem | pkg/proxy/lb.go:14 | Go's truncated `%` for a positive divisor: congruent to the dividend modulo the divisor, in [0, b) for a non-negative dividend and in (-b, 0] for a negative one (which pins it uniquely), and 0 for any multiple of the divisor |
| Ints.ToUint16 | pkg/proxy/proxy.go:67 | `uint16(port)` is congruent to the port modulo 2^16 and is the port itself when it is in 0..65535 |
| Ints.Uint32ToUint16 | cmd/proxy/steer.c:29 | narrowing the u32 local port to `__u16` keeps it modulo 2^16, and unchanged below 65536 |
| Lb.LoadBalancer.constructor | pkg/proxy/proxy.go:61-63 | a new balancer holds exactly the app's targets and its counter starts at 0 |
| Lb.LoadBalancer.NextInLine | pkg/proxy/lb.go:12-15 | the counter advances by one with int32 wrap-around; the result is the counter from before the call, `%` the number of targets; it is a valid index whenever that counter was non-negative, and 0 whenever that counter is a multiple of the number of targets (negative ones included) |
| Lb.LoadBalancer.GetNextTarget | pkg/proxy/lb.go:17-19 | returns `targets[old next mod L]` (the first element of `RoundRobin` from a non-negative old counter) and advances the counter by one; callable in every case where the source does not panic |
| Lb.RoundRobinIsRotation | pkg/proxy/lb.go:12-19 | from any counter c, L successive selections are the target list rotated to start at `targets[c mod L]` |
| Lb.RoundRobinEachOnce | pkg/proxy/lb.go:12-19 | L successive selections return every target exactly once (same multiset as the target list) |
| Lb.RoundRobinPeriodic | pkg/proxy/lb.go:12-19 | selection k + L picks the same target as selection k; call L + 1 repeats the first |
| Lb.FreshBalancerInOrder | pkg/proxy/lb.go:9-14 | a balancer with counter 0 hands out `targets[0]`, `targets[1]`, … in list order |
| Lb.RoundRobinSnoc | pkg/proxy/lb.go:13-14 | one more selection appends the target at the next counter value |
| Lb.ModStep | pkg/proxy/lb.go:14 | advancing the counter by i < L moves the index by i, wrapping past L at most once |
| ProxyConfig.ValidateConfig | pkg/config/config.go:38-50 | returns no error if and only if no port value occurs twice across all apps' ports, including twice in one app; the loop keeps the seen-set equal to the scanned prefix and the prefix duplicate-free |
| ProxyConfig.AllPortsAppend | pkg/config/config.go:41-42 | the ports of two app lists together are the ports of the first list followed by the ports of the second |
| ProxyConfig.AllPortsPrefix | pkg/config/config.go:41-42 | what the scan has seen before port j of app i is a prefix of the full port list |
| ProxyConfig.AllPortsMembership | pkg/config/config.go:41-42 | a value is among the scanned ports if and only if some app lists it |
| ProxyConfig.DistinctSnoc | pkg/config/config.go:43-46 | adding one port keeps the list duplicate-free if and only if the port was not seen |
| ProxyConfig.DistinctIffSingleOccurrences | pkg/config/config.go:39-47 | duplicate-free means every value occurs at most once |
| ProxyConfig.ValidationDependsOnlyOnPortMultiset | pkg/config/config.go:38-50 | two configurations with the same multiset of port values get the same verdict, whatever the order and grouping |
| ProxyConfig.ValidationIgnoresNamesAndTargets | pkg/config/config.go:41-42 | configurations that differ only in names and targets scan the same port list |
| ProxyConfig.NoPortsValidate | pkg/config/config.go:41-49 | an empty app list, or apps with no ports, validate |
| ProxyConfig.ValidatedPortHasOneOwner | pkg/config/config.go:41-47 | in a valid configuration no port is listed by two different apps |
| AddressText.LastChunk | pkg/proxy/proxy.go:85-86 | the result contains no colon, is a suffix of the address, and is either the whole address or preceded by a colon |
| AddressText.LastChunkAfterColon | pkg/proxy/proxy.go:85-86 | for `a + ":" + b` with b colon-free, the last chunk is b, whatever colons a holds |
| AddressText.Atoi | pkg/proxy/proxy.go:87 | success only for an optional sign followed by at least one decimal digit with a value in int64 range; an unsigned, `+`-signed or `-`-signed digit string whose value is in int64 range always succeeds, with its decimal value, that value, or its negation |
| AddressText.LastChunkAfterLastColon | pkg/proxy/proxy.go:85-86 | whenever position i holds the last colon of the string, the chunk is exactly the text after i |
| AddressText.DecimalValue | pkg/proxy/proxy.go:87 | the digits of a rendered natural number read back as that number |
| AddressText.AtoiDecimal | pkg/proxy/proxy.go:87 | `strconv.Atoi` parses every rendered natural in int64 range back to itself |
| AddressText.AtoiRejectsNonDigit | pkg/proxy/proxy.go:87 | a non-digit after the first character makes the parse fail |
| BpfProxy.TablesSnoc | pkg/proxy/proxy.go:60-68 | one more app extends the port table by its ports, the balancer table by its name and the port list by its ports |
| BpfProxy.SteeredPortsAppend | pkg/proxy/proxy.go:66-67 | converting concatenated port lists converts each part |
| BpfProxy.OwnerMapSnoc | pkg/proxy/proxy.go:66 | mapping one more port to the app's name is a single map update |
| BpfProxy.BalancersForAdd | pkg/proxy/proxy.go:61-63 | registering a new balancer under a name keeps one distinct balancer per name, holding that name's targets |
| BpfProxy.PortTableDomain | pkg/proxy/proxy.go:65-67 | a port has an entry in `portToApp` if and only if some app lists it |
| BpfProxy.PortTableLastWins | pkg/proxy/proxy.go:60-68 | a port maps to the name of the last app that lists it, so a later app overwrites an earlier one |
| BpfProxy.ValidatedPortOwner | pkg/proxy/proxy.go:60-68 | after validation, each port maps to the one app that lists it |
| BpfProxy.PortTableNamesHaveBalancers | pkg/proxy/proxy.go:60-67 | every app name in `portToApp` has a balancer |
| BpfProxy.TargetsTableDomain | pkg/proxy/proxy.go:60-63 | the balancer names are exactly the app names |
| BpfProxy.TargetsTableLastWins | pkg/proxy/proxy.go:60-63 | an app's balancer holds that app's targets unless a later app reuses the name, in which case the later app wins |
| BpfProxy.ValidatedSteeredPortsDistinct | pkg/proxy/proxy.go:65-68 | with every port in 0..65535, a valid configuration gives a steered port list without duplicates |
| BpfProxy.OutOfRangePortsCollide | pkg/proxy/proxy.go:67 | ports 80 and 65616 validate but become the same uint16 port twice in the steered list |
| BpfProxy.RegisterPorts | pkg/proxy/proxy.go:65-68 | the inner loop maps each of the app's ports to its name over the existing table and appends each, as uint16, to the port list in order |
| BpfProxy.Proxy.ConstructLookupTables | pkg/proxy/proxy.go:55-75 | afterwards `portToApp` is the port table of the app list, `ports` is every port of every app in order as uint16 (duplicates kept), and there is one fresh balancer per app name with that name's targets and counter 0 |
| BpfProxy.Proxy.New | pkg/proxy/proxy.go:27-37 | sets the listening port, the 45-second timeout and a replay budget of 5, then builds the lookup tables as above |
| BpfProxy.Proxy.GetPorts | pkg/proxy/proxy.go:119-121 | returns the port list built from the configuration and changes nothing |
| BpfProxy.GetPortFromAddress | pkg/proxy/proxy.go:84-88 | the recovered port is in int64 range; what it is read from is stated by the lemmas below |
| BpfProxy.PortIsTextAfterLastColon | pkg/proxy/proxy.go:84-88 | for an address whose last colon is at position i, the result is `strconv.Atoi` of the text after i |
| BpfProxy.RouteApp | pkg/proxy/proxy.go:173 | `portToApp[port]`: the entry when there is one, Go's zero value "" otherwise |
| BpfProxy.RouteThroughTables | pkg/proxy/proxy.go:173 | over the tables of an app list, a port no app lists routes to "", and a listed port routes to an app name that has a balancer |
| BpfProxy.PortRecoveryRoundTrip | pkg/proxy/proxy.go:84-88 | from `host + ":" + port`, for any host (colons included), the port is recovered exactly |
| BpfProxy.PortRecoveryExample | pkg/proxy/proxy.go:84-88 | `"127.0.0.1:8001"` gives 8001 |
| BpfProxy.NoColonParsedWhole | pkg/proxy/proxy.go:85-87 | an address with no colon is parsed whole |
| BpfProxy.FirstConnected | pkg/proxy/proxy.go:165-190 | the index of the first attempt that connects within the budget: every earlier attempt failed, and it is the budget when none connects |
| BpfProxy.Attempts | pkg/proxy/proxy.go:165-190 | a session never makes more attempts than the budget, and uses the whole budget exactly when all attempts but possibly the last fail |
| BpfProxy.FourFailuresThenSuccess | pkg/proxy/proxy.go:176-187 | success on attempt 5 after four failed resolves or dials leaves `replayCount` at 4 |
| BpfProxy.FiveFailuresAbort | pkg/proxy/proxy.go:166-169 | five failures spend the budget of 5; no sixth attempt is made |
| BpfProxy.Proxy.Session | pkg/proxy/proxy.go:154-190 | a failed port recovery returns before any selection. Otherwise the app's balancer is asked once per attempt, so the targets tried are the next `Attempts` round-robin picks. Its counter advances by exactly that many and no other balancer changes. The session relays to the target of the first attempt that connects, with `replayCount` equal to the failures before it, or aborts with `replayCount` at the budget |
| Steer.Verdict.Code | cmd/proxy/steer.c:42 | the verdict's return value is 0 for drop and 1 for pass |
| Steer.PortKey | cmd/proxy/steer.c:29 | the `ports` key is the local port itself below 65536 |
| Steer.Steer | cmd/proxy/steer.c:21-43 | returns 1 (SK_PASS) if and only if the port is not registered, or the socket in slot 0 is present and `bpf_sk_assign` returned 0. The socket map is consulted exactly when the port is registered. Exactly the slot-0 socket is assigned, when present, and it is released once exactly then |
| Steer.StoredValueIgnored | cmd/proxy/steer.c:30-31 | only key presence in `ports` matters, never the stored byte |
| Steer.OnlySlotZeroMatters | cmd/proxy/steer.c:35 | entries of `dedicated_socket` other than slot 0 never change a run |
| Steer.SeededPorts | cmd/proxy/main.go:58 | the seeded `ports` map has exactly the steered ports as keys, each with value 0 |
| Steer.SeededSockets | cmd/proxy/main.go:73 | the listener is stored in slot 0 |
| Steer.ConfiguredPortsAreSteered | cmd/proxy/main.go:56-58 | after seeding from `GetPorts`, a connection to any configured port is handed to the listener, released once, and passes if and only if the assign succeeds. A port that matches no configured port even after narrowing passes without a socket lookup |
| Scenario.WebTables | pkg/proxy/proxy.go:60-68 | for one app "web" on 8001 and 8002, both ports map to "web" and "web" has the app's two backends |
| Scenario.WebRoutes | pkg/proxy/proxy.go:84-88 | both local addresses recover their port and route to "web" |
| Scenario.ConnectOnce | pkg/proxy/proxy.go:154-190 | a first-try connection relays to the backend at the app counter mod 2 and advances the counter by one |
| Scenario.ThreeConnectionsToWeb | pkg/proxy/proxy.go:165-190 | connections to 8001, 8002, 8001 relay to backends 9001, 9002, 9001: the counter is per app, shared by its ports |

## Left out

- Socket I/O: `setupListeningSocket`, `GetListeningSocketFD`, accepting,
  `ResolveTCPAddr`, `DialTCP`, and the relay in `forwardMessage`. These are
  network system calls. Resolve and dial results enter `Session` only as the
  `DialOutcome` inputs, and the relay phase after a connection is not modelled.
- Concurrency: goroutines, the `WaitGroup` and the atomicity of
  `atomic.AddInt32`. Balancer calls are modelled one after another.
- Time: deadlines, the one-second accept poll and `isTimeoutError`. The
  45-second timeout appears only as the constant `New` stores.
- The accept loop `Proxy`, and its context cancellation: it is scheduling and
  I/O around `_proxy`.
- `ConfigStore.Read`: it reads a file and calls `encoding/json`. Only the
  `validateConfig` step it ends with is modelled.
- `cmd/proxy/main.go` beyond seeding the two maps: loading the eBPF objects,
  attaching to the namespace, rlimits and signals are kernel and OS plumbing.
- The BPF helpers themselves. Their results are inputs to `Steer`.
- Logging everywhere.
- Lb.LoadBalancer.GetNextTarget: requires a counter that is non-negative or
  a multiple of the number of targets. Selection 2^31 wraps the counter to
  MIN_INT32; from then on a counter that is not a multiple of the target
  count gives a negative index and the source panics, which the model does
  not represent. `NextInLine` itself models the wrap and the negative
  remainder in every case.
- BpfProxy.Proxy.Session: requires what the source needs in order not to
  panic. The routed app name (`""` for a port with no entry, Go's map zero
  value) must have a balancer with targets, and its counter must not go
  negative before any attempt. This is stricter than the source for a
  wrapped counter that happens to be a multiple of the target count, which
  `GetNextTarget` alone does allow. A missing balancer is a nil dereference
  there, and an empty target list a division by zero. The outcome sequence
  must cover the whole replay budget.
- BpfProxy.Proxy.Session: stops at the start of the relay. The per-connection
  `defer`s and the relay itself are not modelled.
- AddressText.Atoi: has a single error value. It does not tell Go's
  `ErrSyntax` from `ErrRange`, because `getPortFromAddress` only passes the
  error on.
