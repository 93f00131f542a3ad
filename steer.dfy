/**
 * The eBPF `sk_lookup` program `steer`: for a connection arriving on a local
 * port, decide whether the kernel passes it on as usual, hands it to the
 * proxy's dedicated listening socket, or drops it.
 *
 * The kernel maps are lookups given as inputs (`ports`, keyed by u16 port,
 * and the single-slot sockmap `dedicated_socket`, keyed by u32), and so is
 * the return code of `bpf_sk_assign`. The program writes to neither map.
 */
module Steer {
  import opened Wrappers
  import opened Ints
  import opened ProxyConfig
  import opened BpfProxy

  /** The `sk_action` verdicts of an `sk_lookup` program. */
  datatype Verdict = SkDrop | SkPass
  {
    /** The numeric return value: SK_DROP is 0 and SK_PASS is 1 in the kernel's UAPI. */
    function Code(): (c: int)
      ensures c == 0 <==> this == SkDrop
      ensures 0 <= c <= 1
    {
      match this
      case SkDrop => 0
      case SkPass => 1
    }
  }

  /** A socket held in the sockmap, known here only by its descriptor. */
  datatype Socket = Socket(fd: nat)

  /**
   * One run of `steer`: its verdict, whether it looked up `dedicated_socket`,
   * the socket (if any) it handed over to `bpf_sk_assign`, and how many socket
   * references it released.
   */
  datatype SteerRun = SteerRun(verdict: Verdict, socketLookedUp: bool, handedOver: Option<Socket>, releases: nat)

  /** The only slot `steer` ever reads in the single-entry `dedicated_socket` map. */
  const DEDICATED_SLOT: uint32 := 0

  /** The `ports` map's key for a connection: the context's 32-bit local port narrowed to `__u16`. */
  function PortKey(localPort: uint32): (k: uint16)
    ensures localPort < 0x1_0000 ==> k as int == localPort as int
  {
    Uint32ToUint16(localPort)
  }

  /**
   * `steer`: an unregistered port passes untouched; a registered port with
   * no dedicated socket is dropped; otherwise the socket is assigned,
   * released, and the program returns SK_PASS (1) exactly when the
   * assignment returned 0, SK_DROP (0) otherwise.
   */
  function Steer(localPort: uint32, ports: map<uint16, uint8>, dedicatedSocket: map<uint32, Socket>, assignErr: int): (r: SteerRun)
    ensures r.verdict.Code() == 1 <==>
      PortKey(localPort) !in ports || (DEDICATED_SLOT in dedicatedSocket && assignErr == 0)
    ensures r.socketLookedUp <==> PortKey(localPort) in ports
    ensures r.handedOver.Some? <==> PortKey(localPort) in ports && DEDICATED_SLOT in dedicatedSocket
    ensures r.handedOver.Some? ==> r.handedOver.value == dedicatedSocket[DEDICATED_SLOT]
    ensures r.releases == (if r.handedOver.Some? then 1 else 0)
  {
    var port := PortKey(localPort);
    if port !in ports then
      SteerRun(SkPass, false, None, 0)
    else if DEDICATED_SLOT !in dedicatedSocket then
      SteerRun(SkDrop, true, None, 0)
    else
      var sk := dedicatedSocket[DEDICATED_SLOT];
      SteerRun(if assignErr != 0 then SkDrop else SkPass, true, Some(sk), 1)
  }

  /** Only whether the port is a key of `ports` matters; the stored byte is never read. */
  lemma StoredValueIgnored(localPort: uint32, ports: map<uint16, uint8>, ports': map<uint16, uint8>,
                           dedicatedSocket: map<uint32, Socket>, assignErr: int)
    requires ports.Keys == ports'.Keys
    ensures Steer(localPort, ports, dedicatedSocket, assignErr) == Steer(localPort, ports', dedicatedSocket, assignErr)
  {
    assert PortKey(localPort) in ports <==> PortKey(localPort) in ports';
  }

  /** Entries of `dedicated_socket` other than slot 0 never affect a run. */
  lemma OnlySlotZeroMatters(localPort: uint32, ports: map<uint16, uint8>, dedicatedSocket: map<uint32, Socket>,
                            dedicatedSocket': map<uint32, Socket>, assignErr: int)
    requires DEDICATED_SLOT in dedicatedSocket <==> DEDICATED_SLOT in dedicatedSocket'
    requires DEDICATED_SLOT in dedicatedSocket ==> dedicatedSocket[DEDICATED_SLOT] == dedicatedSocket'[DEDICATED_SLOT]
    ensures Steer(localPort, ports, dedicatedSocket, assignErr) == Steer(localPort, ports, dedicatedSocket', assignErr)
  {
  }

  /** The `ports` map as the loader seeds it: every steered port, each with the value 0. */
  function SeededPorts(steered: seq<uint16>): (m: map<uint16, uint8>)
    ensures forall q :: q in m <==> q in steered
    ensures forall q :: q in m ==> m[q] == 0
  {
    map q | q in steered :: 0
  }

  /** The loader stores the proxy's listening socket in slot 0, the slot `steer` reads. */
  function SeededSockets(listener: Socket): (m: map<uint32, Socket>)
    ensures DEDICATED_SLOT in m && m[DEDICATED_SLOT] == listener
  {
    map[DEDICATED_SLOT := listener]
  }

  /**
   * End to end: once the `ports` map is seeded from `GetPorts` of a proxy
   * built from `apps` and the listener sits in slot 0, a connection to any
   * configured port in the u16 range is handed to the listener (and passes
   * when the assignment succeeds), while a local port that no app lists,
   * even after narrowing, passes untouched without a socket lookup.
   */
  lemma {:induction false} ConfiguredPortsAreSteered(apps: seq<App>, listener: Socket, localPort: uint32, assignErr: int)
    ensures var r := Steer(localPort, SeededPorts(SteeredPorts(AllPorts(apps))), SeededSockets(listener), assignErr);
      && (localPort as int in AllPorts(apps) ==>
            r.handedOver == Some(listener) && r.releases == 1 && (r.verdict == SkPass <==> assignErr == 0))
      && ((forall p :: p in AllPorts(apps) ==> ToUint16(p) != PortKey(localPort)) ==>
            r == SteerRun(SkPass, false, None, 0))
  {
    var all := AllPorts(apps);
    var steered := SteeredPorts(all);
    if localPort as int in all {
      var i :| 0 <= i < |all| && all[i] == localPort as int;
      assert steered[i] == PortKey(localPort);
    }
    if forall p :: p in all ==> ToUint16(p) != PortKey(localPort) {
      forall i | 0 <= i < |steered|
        ensures steered[i] != PortKey(localPort)
      {
        assert all[i] in all;
      }
    }
  }
}
