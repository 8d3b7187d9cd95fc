/**
 Connection ids. An id packs the peer's address, the peer's port and the local port into 64 bits;
 ports appear in it in network byte order. Shifts and masks are written as multiplication,
 division and remainder by powers of two.
 */
module ConnId {
  const K8 := 0x100
  const K16 := 0x1_0000
  const K32 := 0x1_0000_0000

  type Ip = x: nat | x < 0x1_0000_0000
  type Port = x: nat | x < 0x1_0000
  type Id = x: nat | x < 0x1_0000_0000_0000_0000

  /** Host to network byte order and back. */
  function Swap(p: Port): Port {
    (p % K8) * K8 + p / K8
  }

  function Pack(ip: Ip, remote: Port, local: Port): Id {
    ip * K32 + remote * K16 + local
  }

  function IpOf(id: Id): Ip {
    id / K32
  }

  function RemoteOf(id: Id): Port {
    id / K16 % K16
  }

  function LocalOf(id: Id): Port {
    id % K16
  }

  /** `accept` replaces the port the client dialled by the one it assigns. */
  function WithLocal(id: Id, p: Port): Id {
    id / K16 * K16 + p
  }

  /** `connect` replaces the port it dialled by the one it was assigned. */
  function WithRemote(id: Id, p: Port): Id {
    id / K32 * K32 + p * K16 + id % K16
  }

  /** A counter value cut down to a port. */
  function PortOf(c: nat): Port {
    c % K16
  }

  lemma {:induction false} SwapTwice(p: Port)
    ensures Swap(Swap(p)) == p
  {
    var hi, lo := p / K8, p % K8;
    assert Swap(p) == lo * K8 + hi;
    assert (lo * K8 + hi) % K8 == hi && (lo * K8 + hi) / K8 == lo;
  }

  lemma {:induction false} Unpack(ip: Ip, a: Port, b: Port)
    ensures IpOf(Pack(ip, a, b)) == ip && RemoteOf(Pack(ip, a, b)) == a && LocalOf(Pack(ip, a, b)) == b
  {
    var id := Pack(ip, a, b);
    assert id / K32 == ip;
    assert id / K16 == ip * K16 + a;
    assert (ip * K16 + a) % K16 == a;
  }

  lemma {:induction false} Repack(ip: Ip, a: Port, b: Port, p: Port)
    ensures WithLocal(Pack(ip, a, b), p) == Pack(ip, a, p)
    ensures WithRemote(Pack(ip, a, b), p) == Pack(ip, p, b)
  {
    var id := Pack(ip, a, b);
    assert id / K32 == ip && id % K16 == b;
    assert id / K16 == ip * K16 + a;
  }

  /** The id of a connection of local port `mine` with `theirs` at `ip`. */
  function IdOf(ip: Ip, theirs: Port, mine: Port): Id {
    Pack(ip, Swap(theirs), Swap(mine))
  }

  /** An id determines both ends. */
  lemma {:induction false} IdInjective(ip: Ip, a: Port, b: Port, ip': Ip, a': Port, b': Port)
    requires IdOf(ip, a, b) == IdOf(ip', a', b')
    ensures ip == ip' && a == a' && b == b'
  {
    hide Pack, Swap, IpOf, RemoteOf, LocalOf;
    Unpack(ip, Swap(a), Swap(b));
    Unpack(ip', Swap(a'), Swap(b'));
    SwapTwice(a);
    SwapTwice(a');
    SwapTwice(b);
    SwapTwice(b');
  }

  /** What `accept` and `connect` cut out of an id and put into it. */
  lemma {:induction false} IdParts(ip: Ip, a: Port, b: Port, p: Port)
    ensures IpOf(IdOf(ip, a, b)) == ip
    ensures Swap(RemoteOf(IdOf(ip, a, b))) == a
    ensures WithLocal(IdOf(ip, a, b), Swap(p)) == IdOf(ip, a, p)
    ensures WithRemote(IdOf(ip, a, b), Swap(p)) == IdOf(ip, p, b)
  {
    hide Pack, Swap, IpOf, RemoteOf, LocalOf, WithLocal, WithRemote;
    Unpack(ip, Swap(a), Swap(b));
    Repack(ip, Swap(a), Swap(b), Swap(p));
    SwapTwice(a);
  }
}

/**
 The connection handshake: hosts that dial and accept, and a network that may lose, repeat and
 reorder packets. The network is the set of packets ever sent; a packet in it may be delivered
 any number of times, at any time, or never.
 */
module HandshakeModel {
  import opened ConnId

  datatype Body = Con | ConAck(port: Port) | Data

  datatype Pkt = Pkt(src: Ip, sport: Port, dst: Ip, dport: Port, body: Body)

  datatype Role = Client | Server

  datatype Conn = Conn(role: Role, id: Id, peer: Ip, outPort: Port, udpPort: Port, connected: bool)

  /**
   `objs` holds every connection object of the process; the tables refer to them by position.
   `dialling` is the position of the object `connect` is working on, or -1.
   */
  datatype Host = Host(ip: Ip, serving: bool, port: Port, u: nat, s: nat, accepted: map<Id, Id>,
                       objs: seq<Conn>, conns: map<Id, nat>, dialling: int,
                       rings: seq<seq<nat>>, threads: seq<map<Id, nat>>)

  const U_START := 9000
  const S_START := 8700

  function NewHost(ip: Ip, serving: bool, port: Port, nThreads: nat): Host {
    Host(ip, serving, port, U_START, S_START, map[], [], map[], -1,
         seq(nThreads, _ => []), seq(nThreads, _ => map[]))
  }

  /** The id under which the receiver of a packet looks up the connection. */
  function PktId(p: Pkt): Id {
    IdOf(p.src, p.sport, p.dport)
  }

  /** The header every packet of a connection starts with. */
  function PktOf(h: Host, c: Conn, body: Body): Pkt {
    Pkt(h.ip, c.udpPort, c.peer, c.outPort, body)
  }

  /** The acknowledgement carries the assigned port and comes from the configured one. */
  function AckOf(h: Host, c: Conn): Pkt {
    Pkt(h.ip, h.port, c.peer, c.outPort, ConAck(c.udpPort))
  }

  function SwapAddresses(p: Pkt): Pkt {
    Pkt(p.dst, p.dport, p.src, p.sport, p.body)
  }

  function Announce(rings: seq<seq<nat>>, r: nat): (q: seq<seq<nat>>)
    ensures |q| == |rings| && forall t {:trigger q[t]} | 0 <= t < |rings| :: q[t] == rings[t] + [r]
  {
    seq(|rings|, t requires 0 <= t < |rings| => rings[t] + [r])
  }

  /** The connection `accept` builds for a dialled id. */
  function Incoming(h: Host, id: Id): Conn {
    var udp := PortOf(h.s);
    Conn(Server, WithLocal(id, Swap(udp)), IpOf(id), Swap(RemoteOf(id)), udp, false)
  }

  function Accept(h: Host, id: Id): (Host, set<Pkt>) {
    if !h.serving then (h, {})
    else if id in h.accepted then
      var v := h.accepted[id];
      (h.(s := h.s + 1),
       if v in h.conns && 0 <= h.conns[v] < |h.objs| then {AckOf(h, h.objs[h.conns[v]])} else {})
    else
      var c := Incoming(h, id);
      (h.(s := h.s + 1, objs := h.objs + [c], conns := h.conns[c.id := |h.objs|],
          accepted := h.accepted[id := c.id], rings := Announce(h.rings, |h.objs|)),
       {AckOf(h, c)})
  }

  function Dial(h: Host, server: Ip, port: Port): (Host, set<Pkt>) {
    var udp := PortOf(h.u);
    var c := Conn(Client, IdOf(server, port, udp), server, port, udp, false);
    (h.(u := h.u + 1, objs := h.objs + [c], conns := h.conns[c.id := |h.objs|], dialling := |h.objs|),
     {PktOf(h, c, Con)})
  }

  function OnAck(h: Host, id: Id, port: Port): Host {
    if id in h.conns && h.conns[id] < |h.objs| then
      var r := h.conns[id];
      h.(objs := h.objs[r := h.objs[r].(outPort := port, connected := true)])
    else h
  }

  /** The end of `connect`: the connection moves to the id with the assigned port. */
  function Settle(h: Host): Host
    requires 0 <= h.dialling < |h.objs|
  {
    var r := h.dialling;
    var c := h.objs[r];
    var id := WithRemote(c.id, Swap(c.outPort));
    var rest := h.conns - {c.id};
    h.(objs := h.objs[r := c.(id := id)], conns := if id in rest then rest else rest[id := r],
       dialling := -1, rings := Announce(h.rings, r))
  }

  /** A thread takes one connection from its ring into its own table. */
  function Install(h: Host, t: nat): Host
    requires t < |h.rings| == |h.threads| && h.rings[t] != [] && h.rings[t][0] < |h.objs|
  {
    var r := h.rings[t][0];
    var table: map<Id, nat> := h.threads[t][h.objs[r].id := r];
    h.(rings := h.rings[t := h.rings[t][1..]], threads := h.threads[t := table])
  }

  /** A connection that is through its handshake on this side. */
  predicate Settled(h: Host, r: int) {
    0 <= r < |h.objs| && h.dialling != r
  }

  // ---------- the system ----------

  datatype System = System(hosts: map<Ip, Host>, net: set<Pkt>)

  datatype Op =
    | OpDial(ip: Ip, server: Ip, port: Port)
    | OpRedial(ip: Ip)
    | OpSettle(ip: Ip)
    | OpReceive(pkt: Pkt)
    | OpInstall(ip: Ip, t: nat)
    | OpSend(ip: Ip, r: nat)
    | OpReply(pkt: Pkt, t: nat)

  ghost predicate Enabled(s: System, op: Op) {
    match op
    case OpDial(ip, _, _) => ip in s.hosts && s.hosts[ip].dialling == -1
    case OpRedial(ip) => ip in s.hosts && 0 <= s.hosts[ip].dialling < |s.hosts[ip].objs|
    case OpSettle(ip) =>
      && ip in s.hosts && 0 <= s.hosts[ip].dialling < |s.hosts[ip].objs|
      && s.hosts[ip].objs[s.hosts[ip].dialling].connected
    case OpReceive(pkt) =>
      // `accept` takes the lock that `connect` holds while it dials
      && pkt in s.net && pkt.dst in s.hosts
      && (pkt.body.Con? ==> s.hosts[pkt.dst].dialling == -1)
    case OpInstall(ip, t) =>
      && ip in s.hosts
      && var h := s.hosts[ip]; t < |h.rings| == |h.threads| && h.rings[t] != [] && h.rings[t][0] < |h.objs|
    case OpSend(ip, r) => ip in s.hosts && Settled(s.hosts[ip], r)
    case OpReply(pkt, t) =>
      && pkt in s.net && pkt.body.Data? && pkt.dst in s.hosts
      && t < |s.hosts[pkt.dst].threads| && PktId(pkt) in s.hosts[pkt.dst].threads[t]
  }

  /** What one host makes of an operation, and what it sends. */
  ghost function Local(h: Host, op: Op): (Host, set<Pkt>)
    requires op.OpRedial? || op.OpSettle? ==> 0 <= h.dialling < |h.objs|
    requires op.OpInstall? ==> op.t < |h.rings| == |h.threads| && h.rings[op.t] != [] && h.rings[op.t][0] < |h.objs|
    requires op.OpSend? ==> op.r < |h.objs|
  {
    match op
    case OpDial(_, server, port) => Dial(h, server, port)
    case OpRedial(_) => (h, {PktOf(h, h.objs[h.dialling], Con)})
    case OpSettle(_) => (Settle(h), {})
    case OpInstall(_, t) => (Install(h, t), {})
    case OpSend(_, r) => (h, {PktOf(h, h.objs[r], Data)})
    case OpReply(pkt, _) => (h, {SwapAddresses(pkt)})
    case OpReceive(pkt) =>
      match pkt.body
      case Con => Accept(h, PktId(pkt))
      case ConAck(p) => (OnAck(h, PktId(pkt), p), {})
      case Data => (h, {})
  }

  function At(op: Op): Ip {
    match op
    case OpDial(ip, _, _) => ip
    case OpRedial(ip) => ip
    case OpSettle(ip) => ip
    case OpInstall(ip, _) => ip
    case OpSend(ip, _) => ip
    case OpReceive(pkt) => pkt.dst
    case OpReply(pkt, _) => pkt.dst
  }

  ghost function Step(s: System, op: Op): System
    requires Enabled(s, op)
  {
    var (h, sent) := Local(s.hosts[At(op)], op);
    System(s.hosts[At(op) := h], s.net + sent)
  }
}

/** What every run of the handshake keeps as long as no step clashes, and that a step breaks it exactly when it does. */
module HandshakeInv {
  import opened ConnId
  import opened HandshakeModel

  /**
   The steps after which the tables no longer tell connections apart: one that files a connection
   under an id in use, and an acknowledgement that changes a connection that is through.
   */
  ghost predicate Clash(s: System, op: Op)
    requires Enabled(s, op)
  {
    match op
    case OpDial(ip, server, port) => IdOf(server, port, PortOf(s.hosts[ip].u)) in s.hosts[ip].conns
    case OpSettle(ip) =>
      var h := s.hosts[ip];
      var c := h.objs[h.dialling];
      WithRemote(c.id, Swap(c.outPort)) in h.conns - {c.id}
    case OpReceive(pkt) =>
      var h, id := s.hosts[pkt.dst], PktId(pkt);
      (match pkt.body
       case Con => h.serving && id !in h.accepted && Incoming(h, id).id in h.conns
       case ConAck(port) => id in h.conns && Disturbs(h, h.conns[id], port)
       case Data => false)
    case _ => false
  }

  ghost predicate Disturbs(h: Host, r: nat, port: Port) {
    Settled(h, r) && (h.objs[r].role == Server || h.objs[r].outPort != port)
  }

  /** Object `r` is filed under its id, which names both ends once the connection is through. */
  ghost predicate ObjInv(h: Host, r: nat)
    requires r < |h.objs|
  {
    var c := h.objs[r];
    && c.id in h.conns && h.conns[c.id] == r
    && if h.dialling == r then c.role == Client && exists dialled: Port :: DialId(c, dialled)
       else c.id == IdOf(c.peer, c.outPort, c.udpPort) && (c.connected <==> c.role == Client)
  }

  ghost predicate DialId(c: Conn, dialled: Port) {
    c.id == IdOf(c.peer, dialled, c.udpPort)
  }

  /** The table and the objects refer to each other. */
  ghost predicate Filed(h: Host) {
    && (forall id | id in h.conns :: 0 <= h.conns[id] < |h.objs| && h.objs[h.conns[id]].id == id)
    && (forall r | 0 <= r < |h.objs| :: ObjInv(h, r))
  }

  ghost predicate Remembers(h: Host) {
    forall id | id in h.accepted :: AcceptedInv(h, id)
  }

  ghost predicate ThreadsOk(h: Host) {
    && |h.rings| == |h.threads|
    && (forall t | 0 <= t < |h.rings| :: RingInv(h, h.rings[t]))
    && (forall t | 0 <= t < |h.threads| :: TableInv(h, h.threads[t]))
  }

  ghost predicate HostInv(h: Host) {
    -1 <= h.dialling < |h.objs| && Filed(h) && Remembers(h) && ThreadsOk(h)
  }

  /** A dialled id is remembered with the connection built for it. */
  ghost predicate AcceptedInv(h: Host, id: Id)
    requires id in h.accepted
  {
    var v := h.accepted[id];
    && v in h.conns && 0 <= h.conns[v] < |h.objs|
    && var c := h.objs[h.conns[v]];
       c.role == Server && c.id == v && c.peer == IpOf(id) && c.outPort == Swap(RemoteOf(id))
  }

  ghost predicate RingInv(h: Host, ring: seq<nat>) {
    forall i | 0 <= i < |ring| :: Settled(h, ring[i])
  }

  ghost predicate TableInv(h: Host, table: map<Id, nat>) {
    forall id | id in table :: Settled(h, table[id]) && h.objs[table[id]].id == id
  }

  /** Two connection objects are the two ends of one connection. */
  ghost predicate Mirrors(ip: Ip, c: Conn, ip2: Ip, c2: Conn) {
    c.peer == ip2 && c2.peer == ip && c.outPort == c2.udpPort && c2.outPort == c.udpPort
  }

  /** The server at `c.peer` has the other end of client connection `c` of `ip`. */
  ghost predicate HasServerEnd(s: System, ip: Ip, c: Conn, r2: nat) {
    && c.peer in s.hosts && r2 < |s.hosts[c.peer].objs|
    && s.hosts[c.peer].objs[r2].role == Server
    && Mirrors(ip, c, c.peer, s.hosts[c.peer].objs[r2])
  }

  /** Object `q` of `h` dialled `peer` from `port`. */
  ghost predicate Dialler(h: Host, peer: Ip, port: Port, q: nat) {
    q < |h.objs| && h.objs[q].role == Client && h.objs[q].peer == peer && h.objs[q].udpPort == port
  }

  /** A client that is through has its server end; a server end was dialled. */
  ghost predicate EndInv(s: System, ip: Ip, r: nat)
    requires ip in s.hosts && r < |s.hosts[ip].objs|
  {
    var c := s.hosts[ip].objs[r];
    match c.role
    case Client => c.connected ==> exists r2 :: HasServerEnd(s, ip, c, r2)
    case Server => c.peer in s.hosts && exists q :: Dialler(s.hosts[c.peer], ip, c.outPort, q)
  }

  ghost predicate PktInv(s: System, p: Pkt) {
    && p.src in s.hosts
    && match p.body
       case Con => exists q :: Dialler(s.hosts[p.src], p.dst, p.sport, q)
       case ConAck(port) => p.sport == s.hosts[p.src].port && exists r :: AckFrom(s, p, port, r)
       case Data => exists r :: DataFrom(s.hosts[p.src], p, r)
  }

  ghost predicate AckFrom(s: System, p: Pkt, port: Port, r: nat)
    requires p.src in s.hosts
  {
    && r < |s.hosts[p.src].objs|
    && var c := s.hosts[p.src].objs[r];
       c.role == Server && c.peer == p.dst && c.outPort == p.dport && c.udpPort == port
  }

  ghost predicate DataFrom(h: Host, p: Pkt, r: nat) {
    Settled(h, r) && p == PktOf(h, h.objs[r], Data)
  }

  ghost predicate Inv(s: System) {
    && (forall ip | ip in s.hosts :: s.hosts[ip].ip == ip && HostInv(s.hosts[ip]))
    && (forall ip, r | ip in s.hosts && 0 <= r < |s.hosts[ip].objs| :: EndInv(s, ip, r))
    && (forall p | p in s.net :: PktInv(s, p))
  }

  // ---------- one host ----------

  /** What settled on a host stays as it is; who dialled whom from which port stays in any case. */
  ghost predicate Grows(h: Host, h': Host) {
    && h'.ip == h.ip && h'.port == h.port && h'.serving == h.serving
    && |h.objs| <= |h'.objs|
    && (forall r | Settled(h, r) :: Settled(h', r) && h'.objs[r] == h.objs[r])
    && (forall r | 0 <= r < |h.objs| :: SameStem(h.objs[r], h'.objs[r]))
  }

  predicate SameStem(c: Conn, c': Conn) {
    c'.role == c.role && c'.peer == c.peer && c'.udpPort == c.udpPort
  }

  /** Whatever the phase, an object's id ends in its own port. */
  lemma {:induction false} IdTail(h: Host, r: nat) returns (theirs: Port)
    requires HostInv(h) && r < |h.objs|
    ensures h.objs[r].id == IdOf(h.objs[r].peer, theirs, h.objs[r].udpPort)
    ensures h.dialling != r ==> theirs == h.objs[r].outPort
  {
    hide IdOf;
    assert ObjInv(h, r);
    var c := h.objs[r];
    if h.dialling == r {
      theirs :| DialId(c, theirs);
    } else {
      theirs := c.outPort;
    }
  }

  /** A connection with a fresh id is filed without disturbing the others. */
  lemma {:induction false} AddObj(h: Host, c: Conn, h': Host)
    requires HostInv(h) && h.dialling == -1 && (h'.dialling == -1 || h'.dialling == |h.objs|)
    requires h'.objs == h.objs + [c] && h'.conns == h.conns[c.id := |h.objs|]
    requires c.id !in h.conns && ObjInv(h', |h.objs|)
    ensures Filed(h')
  {
    hide IdOf, Remembers, ThreadsOk;
    forall r | 0 <= r < |h'.objs| ensures ObjInv(h', r) {
      if r < |h.objs| {
        assert ObjInv(h, r) && h'.objs[r] == h.objs[r];
      }
    }
  }

  /** Filing it under an id in use does disturb: the connection that had the id is not found any more. */
  lemma {:induction false} AddObjClashes(h: Host, c: Conn, h': Host)
    requires HostInv(h) && h'.objs == h.objs + [c] && h'.conns == h.conns[c.id := |h.objs|]
    requires c.id in h.conns
    ensures !Filed(h')
  {
    hide IdOf, Remembers, ThreadsOk;
    var q := h.conns[c.id];
    assert h'.objs[q].id == c.id && h'.conns[c.id] != q;
    assert !ObjInv(h', q);
  }

  /** What threads know of stays settled when the host grows. */
  lemma {:induction false} ThreadsKeep(h: Host, h': Host)
    requires ThreadsOk(h) && Grows(h, h') && h'.rings == h.rings && h'.threads == h.threads
    ensures ThreadsOk(h')
  {
    forall t | 0 <= t < |h.rings| ensures RingInv(h', h'.rings[t]) {
      assert RingInv(h, h.rings[t]);
    }
    forall t | 0 <= t < |h.threads| ensures TableInv(h', h'.threads[t]) {
      assert TableInv(h, h.threads[t]);
    }
  }

  lemma {:induction false} AnnounceKeeps(h: Host, h': Host, r: nat)
    requires ThreadsOk(h) && Grows(h, h') && h'.rings == Announce(h.rings, r) && h'.threads == h.threads
    requires Settled(h', r)
    ensures ThreadsOk(h')
  {
    forall t | 0 <= t < |h.rings| ensures RingInv(h', h'.rings[t]) {
      assert RingInv(h, h.rings[t]) && h'.rings[t] == h.rings[t] + [r];
    }
    forall t | 0 <= t < |h.threads| ensures TableInv(h', h'.threads[t]) {
      assert TableInv(h, h.threads[t]);
    }
  }

  lemma {:induction false} RemembersKeep(h: Host, h': Host)
    requires HostInv(h) && Grows(h, h') && h'.accepted == h.accepted
    requires forall id | id in h.conns && h.dialling != h.conns[id] :: id in h'.conns && h'.conns[id] == h.conns[id]
    ensures Remembers(h')
  {
    hide IdOf, ThreadsOk;
    forall id | id in h'.accepted ensures AcceptedInv(h', id) {
      assert AcceptedInv(h, id);
      assert ObjInv(h, h.conns[h.accepted[id]]);
    }
  }

  lemma {:induction false} DialKeeps(h: Host, server: Ip, port: Port)
    requires HostInv(h) && h.dialling == -1 && IdOf(server, port, PortOf(h.u)) !in h.conns
    ensures HostInv(Dial(h, server, port).0) && Grows(h, Dial(h, server, port).0)
  {
    hide IdOf, ThreadsOk, Remembers, PortOf;
    var (h', sent) := Dial(h, server, port);
    var c := h'.objs[|h.objs|];
    assert DialId(c, port);
    assert ObjInv(h', |h.objs|);
    AddObj(h, c, h');
    ThreadsKeep(h, h');
    RemembersKeep(h, h');
  }

  /** A dialled id the server does not know yet. */
  lemma {:induction false} IncomingIs(h: Host, ip: Ip, client: Port, dialled: Port)
    ensures Incoming(h, IdOf(ip, client, dialled)) ==
            Conn(Server, IdOf(ip, client, PortOf(h.s)), ip, client, PortOf(h.s), false)
  {
    hide IdOf, PortOf, Swap, WithLocal, IpOf, RemoteOf;
    IdParts(ip, client, dialled, PortOf(h.s));
  }

  lemma {:induction false} AcceptNewKeeps(h: Host, ip: Ip, client: Port, dialled: Port)
    requires HostInv(h) && h.dialling == -1 && h.serving
    requires IdOf(ip, client, dialled) !in h.accepted && Incoming(h, IdOf(ip, client, dialled)).id !in h.conns
    ensures var h' := Accept(h, IdOf(ip, client, dialled)).0; HostInv(h') && Grows(h, h')
  {
    hide IdOf, ThreadsOk, PortOf, Swap, WithLocal, IpOf, RemoteOf;
    var id := IdOf(ip, client, dialled);
    IncomingIs(h, ip, client, dialled);
    IdParts(ip, client, dialled, PortOf(h.s));
    var (h', sent) := Accept(h, id);
    var c := Incoming(h, id);
    assert ObjInv(h', |h.objs|);
    AddObj(h, c, h');
    AnnounceKeeps(h, h', |h.objs|);
    forall k | k in h'.accepted ensures AcceptedInv(h', k) {
      if k != id {
        assert AcceptedInv(h, k);
      }
    }
  }

  lemma {:induction false} AcceptAgainKeeps(h: Host, id: Id)
    requires HostInv(h) && h.serving && id in h.accepted
    ensures var h' := Accept(h, id).0; HostInv(h') && Grows(h, h') && h'.objs == h.objs && h'.conns == h.conns
  {
    hide IdOf, ThreadsOk;
    var (h', sent) := Accept(h, id);
    forall r | 0 <= r < |h.objs| ensures ObjInv(h', r) {
      assert ObjInv(h, r);
    }
    ThreadsKeep(h, h');
    RemembersKeep(h, h');
  }

  /** The answer to the connection being dialled. */
  lemma {:induction false} AckKeeps(h: Host, id: Id, port: Port)
    requires HostInv(h) && id in h.conns && h.conns[id] == h.dialling
    ensures HostInv(OnAck(h, id, port)) && Grows(h, OnAck(h, id, port))
  {
    hide IdOf, ThreadsOk;
    var h' := OnAck(h, id, port);
    var d := h.dialling;
    assert ObjInv(h, d);
    var dialled :| DialId(h.objs[d], dialled);
    assert DialId(h'.objs[d], dialled);
    forall r | 0 <= r < |h.objs| ensures ObjInv(h', r) {
      assert ObjInv(h, r);
    }
    ThreadsKeep(h, h');
    RemembersKeep(h, h');
  }

  /** A late answer that tells a connection the port it has changes nothing. */
  lemma {:induction false} LateAckQuiet(h: Host, id: Id, port: Port)
    requires HostInv(h) && id in h.conns && h.conns[id] != h.dialling && !Disturbs(h, h.conns[id], port)
    ensures OnAck(h, id, port) == h
  {
    hide IdOf;
    var r := h.conns[id];
    assert ObjInv(h, r);
    assert h.objs[r := h.objs[r]] == h.objs;
  }

  /** One that tells it another port, or that reaches a server connection, does harm. */
  lemma {:induction false} LateAckClashes(h: Host, id: Id, port: Port)
    requires HostInv(h) && id in h.conns && Disturbs(h, h.conns[id], port)
    ensures !Filed(OnAck(h, id, port))
  {
    hide IdOf;
    var r, h' := h.conns[id], OnAck(h, id, port);
    assert ObjInv(h, r);
    var c := h'.objs[r];
    assert c.connected && h'.dialling != r;
    if ObjInv(h', r) {
      IdInjective(c.peer, c.outPort, c.udpPort, c.peer, h.objs[r].outPort, c.udpPort);
    }
    assert !ObjInv(h', r);
  }

  lemma {:induction false} SettledIdIs(h: Host)
    requires HostInv(h) && 0 <= h.dialling
    ensures var c := h.objs[h.dialling];
            c.role == Client && WithRemote(c.id, Swap(c.outPort)) == IdOf(c.peer, c.outPort, c.udpPort)
  {
    hide IdOf, Swap, WithRemote;
    assert ObjInv(h, h.dialling);
    var c := h.objs[h.dialling];
    var dialled :| DialId(c, dialled);
    IdParts(c.peer, dialled, c.udpPort, c.outPort);
  }

  ghost predicate SettlesClean(h: Host)
    requires 0 <= h.dialling < |h.objs|
  {
    WithRemote(h.objs[h.dialling].id, Swap(h.objs[h.dialling].outPort)) !in h.conns - {h.objs[h.dialling].id}
  }

  lemma {:induction false} SettleKeeps(h: Host)
    requires HostInv(h) && 0 <= h.dialling && h.objs[h.dialling].connected && SettlesClean(h)
    ensures HostInv(Settle(h)) && Grows(h, Settle(h))
    ensures var c := Settle(h).objs[h.dialling];
            c == h.objs[h.dialling].(id := IdOf(c.peer, c.outPort, c.udpPort)) && c.role == Client
  {
    hide IdOf, ThreadsOk, Swap, WithRemote, Announce;
    var d, h' := h.dialling, Settle(h);
    assert ObjInv(h, d);
    SettledIdIs(h);
    SettledTable(h);
    AnnounceKeeps(h, h', d);
    RemembersKeep(h, h');
  }

  lemma {:induction false} SettledTable(h: Host)
    requires HostInv(h) && 0 <= h.dialling && h.objs[h.dialling].connected && SettlesClean(h)
    ensures Filed(Settle(h))
    ensures forall id | id in h.conns && h.dialling != h.conns[id] ::
              id in Settle(h).conns && Settle(h).conns[id] == h.conns[id]
  {
    hide IdOf, ThreadsOk, Remembers, Swap, WithRemote, Announce;
    var d, h' := h.dialling, Settle(h);
    assert ObjInv(h, d);
    SettledIdIs(h);
    forall r | 0 <= r < |h'.objs| ensures ObjInv(h', r) {
      assert ObjInv(h, r);
    }
  }

  lemma {:induction false} SettleClashes(h: Host)
    requires HostInv(h) && 0 <= h.dialling && !SettlesClean(h)
    ensures !Filed(Settle(h))
  {
    hide IdOf, ThreadsOk, Remembers, Swap, WithRemote, Announce;
    var d, h' := h.dialling, Settle(h);
    assert ObjInv(h, d);
    var id := h'.objs[d].id;
    assert id in h.conns && h.conns[id] != d && h'.conns[id] == h.conns[id];
    assert !ObjInv(h', d);
  }

  lemma {:induction false} InstallKeeps(h: Host, t: nat)
    requires HostInv(h) && t < |h.rings| && h.rings[t] != []
    ensures h.rings[t][0] < |h.objs| && HostInv(Install(h, t)) && Grows(h, Install(h, t))
  {
    hide IdOf;
    assert RingInv(h, h.rings[t]);
    assert Settled(h, h.rings[t][0]);
    var h' := Install(h, t);
    forall r | 0 <= r < |h.objs| ensures ObjInv(h', r) {
      assert ObjInv(h, r);
    }
    RemembersKeep(h, h');
    forall k | 0 <= k < |h.rings| ensures RingInv(h', h'.rings[k]) {
      assert RingInv(h, h.rings[k]);
    }
    forall k | 0 <= k < |h.threads| ensures TableInv(h', h'.threads[k]) {
      assert TableInv(h, h.threads[k]);
    }
  }

  // ---------- the system ----------

  /** A server object is settled from the start. */
  lemma {:induction false} ServersSettled(h: Host, r: nat)
    requires HostInv(h) && r < |h.objs| && h.objs[r].role == Server
    ensures Settled(h, r)
  {
    hide IdOf, Remembers, ThreadsOk;
    assert ObjInv(h, r);
  }

  lemma {:induction false} PktKeeps(s: System, ip: Ip, h': Host, net': set<Pkt>, p: Pkt)
    requires Inv(s) && ip in s.hosts && Grows(s.hosts[ip], h') && PktInv(s, p)
    ensures PktInv(System(s.hosts[ip := h'], net'), p)
  {
    hide HostInv, EndInv;
    var s' := System(s.hosts[ip := h'], net');
    match p.body
    case Con =>
      var q :| Dialler(s.hosts[p.src], p.dst, p.sport, q);
      assert Dialler(s'.hosts[p.src], p.dst, p.sport, q);
    case ConAck(port) =>
      var r :| AckFrom(s, p, port, r);
      ServersSettled(s.hosts[p.src], r);
      assert AckFrom(s', p, port, r);
    case Data =>
      var r :| DataFrom(s.hosts[p.src], p, r);
      assert DataFrom(s'.hosts[p.src], p, r);
  }

  lemma {:induction false} EndKeeps(s: System, ip: Ip, h': Host, net': set<Pkt>, ip2: Ip, r: nat)
    requires Inv(s) && ip in s.hosts && Grows(s.hosts[ip], h') && ip2 in s.hosts && r < |s.hosts[ip2].objs|
    ensures var s' := System(s.hosts[ip := h'], net');
            s'.hosts[ip2].objs[r] == s.hosts[ip2].objs[r] ==> EndInv(s', ip2, r)
  {
    hide HostInv, PktInv;
    var s' := System(s.hosts[ip := h'], net');
    var c := s.hosts[ip2].objs[r];
    assert EndInv(s, ip2, r);
    match c.role
    case Client =>
      if c.connected {
        var r2 :| HasServerEnd(s, ip2, c, r2);
        ServerEndKeeps(s, ip, h', net', ip2, c, r2);
      }
    case Server =>
      var q :| Dialler(s.hosts[c.peer], ip2, c.outPort, q);
      assert Dialler(s'.hosts[c.peer], ip2, c.outPort, q);
  }

  lemma {:induction false} ServerEndKeeps(s: System, ip: Ip, h': Host, net': set<Pkt>, ip2: Ip, c: Conn, r2: nat)
    requires Inv(s) && ip in s.hosts && Grows(s.hosts[ip], h') && HasServerEnd(s, ip2, c, r2)
    ensures HasServerEnd(System(s.hosts[ip := h'], net'), ip2, c, r2)
  {
    hide HostInv, EndInv, PktInv;
    ServersSettled(s.hosts[c.peer], r2);
  }

  /** One host changes and something is sent; the invariant needs looking at only there. */
  lemma {:induction false} LocalKeeps(s: System, ip: Ip, h': Host, sent: set<Pkt>)
    requires Inv(s) && ip in s.hosts && Grows(s.hosts[ip], h') && HostInv(h')
    requires var s' := System(s.hosts[ip := h'], s.net + sent);
             && (forall p | p in sent :: PktInv(s', p))
             && (forall r | 0 <= r < |h'.objs| ::
                   EndInv(s', ip, r) || (r < |s.hosts[ip].objs| && h'.objs[r] == s.hosts[ip].objs[r]))
    ensures Inv(System(s.hosts[ip := h'], s.net + sent))
  {
    hide HostInv, PktInv, Grows, EndInv;
    var s' := System(s.hosts[ip := h'], s.net + sent);
    forall p | p in s'.net ensures PktInv(s', p) {
      if p in s.net {
        PktKeeps(s, ip, h', s.net + sent, p);
      }
    }
    forall ip2, r | ip2 in s'.hosts && 0 <= r < |s'.hosts[ip2].objs| ensures EndInv(s', ip2, r) {
      if ip2 != ip || (r < |s.hosts[ip].objs| && h'.objs[r] == s.hosts[ip].objs[r]) {
        EndKeeps(s, ip, h', s.net + sent, ip2, r);
      }
    }
    assert h'.ip == ip by {
      SameIp(s.hosts[ip], h');
    }
  }

  lemma {:induction false} SameIp(h: Host, h': Host)
    requires Grows(h, h')
    ensures h'.ip == h.ip && h'.port == h.port && h'.serving == h.serving
  {
  }

  lemma {:induction false} DialSafe(s: System, ip: Ip, server: Ip, port: Port)
    requires Inv(s) && Enabled(s, OpDial(ip, server, port)) && !Clash(s, OpDial(ip, server, port))
    ensures Inv(Step(s, OpDial(ip, server, port)))
  {
    hide HostInv, IdOf, Grows, PortOf;
    var h := s.hosts[ip];
    var (h', sent) := Dial(h, server, port);
    DialKeeps(h, server, port);
    var s' := System(s.hosts[ip := h'], s.net + sent);
    var p := PktOf(h, h'.objs[|h.objs|], Con);
    assert Dialler(s'.hosts[p.src], p.dst, p.sport, |h.objs|);
    LocalKeeps(s, ip, h', sent);
  }

  lemma {:induction false} RedialSafe(s: System, ip: Ip)
    requires Inv(s) && Enabled(s, OpRedial(ip))
    ensures Inv(Step(s, OpRedial(ip)))
  {
    hide HostInv, IdOf;
    var h := s.hosts[ip];
    var p := PktOf(h, h.objs[h.dialling], Con);
    assert h.objs[h.dialling].role == Client by {
      DiallingIsClient(h);
    }
    assert Dialler(h, p.dst, p.sport, h.dialling);
    LocalKeeps(s, ip, h, {p});
  }

  lemma {:induction false} DiallingIsClient(h: Host)
    requires HostInv(h) && 0 <= h.dialling
    ensures h.objs[h.dialling].role == Client
  {
    hide IdOf, Remembers, ThreadsOk;
    assert ObjInv(h, h.dialling);
  }

  lemma {:induction false} SettleSafe(s: System, ip: Ip)
    requires Inv(s) && Enabled(s, OpSettle(ip)) && !Clash(s, OpSettle(ip))
    ensures Inv(Step(s, OpSettle(ip)))
  {
    hide HostInv, IdOf, Grows, WithRemote, Swap;
    var h := s.hosts[ip];
    var h' := Settle(h);
    SettleKeeps(h);
    var s' := System(s.hosts[ip := h'], s.net + {});
    var d := h.dialling;
    var c := h.objs[d];
    assert EndInv(s, ip, d);
    var r2 :| HasServerEnd(s, ip, c, r2);
    ServerEndKeeps(s, ip, h', s.net + {}, ip, c, r2);
    assert HasServerEnd(s', ip, h'.objs[d], r2);
    LocalKeeps(s, ip, h', {});
  }

  /** An acknowledgement is for the connection it reaches: same peer, same port. */
  lemma {:induction false} AckReaches(s: System, p: Pkt)
    requires Inv(s) && p.dst in s.hosts && PktId(p) in s.hosts[p.dst].conns
    ensures var h := s.hosts[p.dst];
            var r := h.conns[PktId(p)];
            && 0 <= r < |h.objs| && h.objs[r].peer == p.src && h.objs[r].udpPort == p.dport
            && (h.dialling != r ==> h.objs[r].outPort == p.sport)
  {
    hide IdOf, Remembers, ThreadsOk, EndInv, PktInv;
    var h := s.hosts[p.dst];
    assert HostInv(h);
    var r := h.conns[PktId(p)];
    var theirs := IdTail(h, r);
    IdInjective(p.src, p.sport, p.dport, h.objs[r].peer, theirs, h.objs[r].udpPort);
  }

  lemma {:induction false} AckSafe(s: System, p: Pkt)
    requires Inv(s) && p in s.net && p.body.ConAck? && p.dst in s.hosts && !Clash(s, OpReceive(p))
    ensures Inv(Step(s, OpReceive(p)))
  {
    hide HostInv, IdOf, Grows;
    var h, id := s.hosts[p.dst], PktId(p);
    var h' := OnAck(h, id, p.body.port);
    if id in h.conns && h.conns[id] == h.dialling {
      AckReaches(s, p);
      AckKeeps(h, id, p.body.port);
      DiallingIsClient(h);
      var s' := System(s.hosts[p.dst := h'], s.net + {});
      assert PktInv(s, p);
      PktKeeps(s, p.dst, h', s.net + {}, p);
      var r :| AckFrom(s', p, p.body.port, r);
      assert HasServerEnd(s', p.dst, h'.objs[h.dialling], r);
      LocalKeeps(s, p.dst, h', {});
    } else {
      if id in h.conns {
        AckReaches(s, p);
        LateAckQuiet(h, id, p.body.port);
      }
      assert s.hosts[p.dst := h] == s.hosts && s.net + {} == s.net;
    }
  }

  lemma {:induction false} ConSafe(s: System, p: Pkt)
    requires Inv(s) && Enabled(s, OpReceive(p)) && p.body.Con? && !Clash(s, OpReceive(p))
    ensures Inv(Step(s, OpReceive(p)))
  {
    hide HostInv, IdOf, Grows, WithLocal, IpOf, RemoteOf, Swap, PortOf;
    var h, id := s.hosts[p.dst], PktId(p);
    var (h', sent) := Accept(h, id);
    assert PktInv(s, p);
    if !h.serving {
      assert s.hosts[p.dst := h] == s.hosts && s.net + {} == s.net;
    } else {
      var s' := System(s.hosts[p.dst := h'], s.net + sent);
      var r: nat;
      if id in h.accepted {
        AcceptAgainKeeps(h, id);
        r := AcceptedObj(h, id);
        SameIp(h, h');
      } else {
        AcceptNewKeeps(h, p.src, p.sport, p.dport);
        IncomingIs(h, p.src, p.sport, p.dport);
        r := |h.objs|;
        SameIp(h, h');
        assert h'.objs == h.objs + [h'.objs[r]] && h'.objs[r] == Incoming(h, id);
        PktKeeps(s, p.dst, h', s.net + sent, p);
      }
      assert sent == {AckOf(h, h'.objs[r])};
      assert AckFrom(s', AckOf(h, h'.objs[r]), h'.objs[r].udpPort, r);
      LocalKeeps(s, p.dst, h', sent);
    }
  }

  lemma {:induction false} AcceptedObj(h: Host, id: Id) returns (r: nat)
    requires HostInv(h) && id in h.accepted
    ensures r < |h.objs| && h.accepted[id] in h.conns && h.conns[h.accepted[id]] == r && h.objs[r].role == Server
  {
    hide Filed, ThreadsOk;
    assert AcceptedInv(h, id);
    r := h.conns[h.accepted[id]];
  }

  lemma {:induction false} InstallSafe(s: System, ip: Ip, t: nat)
    requires Inv(s) && Enabled(s, OpInstall(ip, t))
    ensures Inv(Step(s, OpInstall(ip, t)))
  {
    hide HostInv, Grows, IdOf;
    InstallRing(s.hosts[ip], t);
    InstallKeeps(s.hosts[ip], t);
    LocalKeeps(s, ip, Install(s.hosts[ip], t), {});
  }

  lemma {:induction false} InstallRing(h: Host, t: nat)
    requires HostInv(h) && t < |h.rings|
    ensures |h.rings| == |h.threads|
  {
  }

  lemma {:induction false} DataSafe(s: System, p: Pkt, ip: Ip, r: nat)
    requires Inv(s) && ip in s.hosts && DataFrom(s.hosts[ip], p, r)
    ensures Inv(System(s.hosts[ip := s.hosts[ip]], s.net + {p}))
  {
    hide HostInv, IdOf;
    var h := s.hosts[ip];
    var s' := System(s.hosts[ip := h], s.net + {p});
    assert s'.hosts == s.hosts && p.src == ip;
    assert PktInv(s', p);
    LocalKeeps(s, ip, h, {p});
  }

  /** A settled object's id names both of its ends. */
  lemma {:induction false} SettledId(h: Host, r: nat)
    requires HostInv(h) && Settled(h, r)
    ensures var c := h.objs[r];
            && c.id == IdOf(c.peer, c.outPort, c.udpPort)
            && c.id in h.conns && h.conns[c.id] == r && (c.role == Client ==> c.connected)
  {
    hide IdOf, Remembers, ThreadsOk;
    assert ObjInv(h, r);
  }

  /** A thread that finds a data packet's id in its table finds the object at the packet's own two ends. */
  lemma {:induction false} RouteEnds(s: System, p: Pkt, t: nat)
    requires Inv(s) && p.dst in s.hosts
    requires t < |s.hosts[p.dst].threads| && PktId(p) in s.hosts[p.dst].threads[t]
    ensures var h := s.hosts[p.dst];
            var y := h.threads[t][PktId(p)];
            Settled(h, y) && h.objs[y].peer == p.src && h.objs[y].outPort == p.sport && h.objs[y].udpPort == p.dport
  {
    hide IdOf, Remembers, EndInv, PktInv, Filed;
    var h := s.hosts[p.dst];
    assert HostInv(h) && TableInv(h, h.threads[t]);
    var y := h.threads[t][PktId(p)];
    SettledId(h, y);
    IdInjective(p.src, p.sport, p.dport, h.objs[y].peer, h.objs[y].outPort, h.objs[y].udpPort);
  }

  lemma {:induction false} ReplySafe(s: System, p: Pkt, t: nat)
    requires Inv(s) && Enabled(s, OpReply(p, t))
    ensures Inv(Step(s, OpReply(p, t)))
  {
    hide HostInv, IdOf, PktInv, EndInv;
    RouteEnds(s, p, t);
    var h := s.hosts[p.dst];
    var y := h.threads[t][PktId(p)];
    assert SwapAddresses(p) == PktOf(h, h.objs[y], Data);
    DataSafe(s, SwapAddresses(p), p.dst, y);
  }

  lemma {:induction false} StepKeeps(s: System, op: Op)
    requires Inv(s) && Enabled(s, op) && !Clash(s, op)
    ensures Inv(Step(s, op))
  {
    hide Inv, IdOf, Dial, Accept, OnAck, Settle, Install, Incoming, Disturbs;
    match op
    case OpDial(ip, server, port) => DialSafe(s, ip, server, port);
    case OpRedial(ip) => RedialSafe(s, ip);
    case OpSettle(ip) => SettleSafe(s, ip);
    case OpInstall(ip, t) => InstallSafe(s, ip, t);
    case OpSend(ip, r) =>
      assert DataFrom(s.hosts[ip], PktOf(s.hosts[ip], s.hosts[ip].objs[r], Data), r);
      DataSafe(s, PktOf(s.hosts[ip], s.hosts[ip].objs[r], Data), ip, r);
    case OpReply(pkt, t) => ReplySafe(s, pkt, t);
    case OpReceive(pkt) =>
      match pkt.body {
        case Con => ConSafe(s, pkt);
        case ConAck(p) => AckSafe(s, pkt);
        case Data => assert s.hosts[pkt.dst := s.hosts[pkt.dst]] == s.hosts && s.net + {} == s.net;
      }
  }

  lemma {:induction false} ClashBreaks(s: System, op: Op)
    requires Inv(s) && Enabled(s, op) && Clash(s, op)
    ensures !Filed(Step(s, op).hosts[At(op)])
  {
    hide EndInv, PktInv, IdOf, Filed, Remembers, ThreadsOk, Announce;
    hide Swap, WithLocal, WithRemote, IpOf, RemoteOf, PortOf;
    var h := s.hosts[At(op)];
    assert HostInv(h);
    match op
    case OpDial(ip, server, port) =>
      var h' := Dial(h, server, port).0;
      AddObjClashes(h, h'.objs[|h.objs|], h');
    case OpSettle(ip) => SettleClashes(h);
    case OpReceive(pkt) =>
      match pkt.body {
        case Con => AddObjClashes(h, Incoming(h, PktId(pkt)), Accept(h, PktId(pkt)).0);
        case ConAck(port) => LateAckClashes(h, PktId(pkt), port);
      }
  }

  /** Exactly the clashing steps break the invariant. */
  lemma {:induction false} StepKeepsIff(s: System, op: Op)
    requires Inv(s) && Enabled(s, op)
    ensures Inv(Step(s, op)) <==> !Clash(s, op)
  {
    hide Filed, EndInv, PktInv, Remembers, ThreadsOk, Clash;
    if Clash(s, op) {
      ClashBreaks(s, op);
      assert !HostInv(Step(s, op).hosts[At(op)]);
    } else {
      StepKeeps(s, op);
    }
  }

  // ---------- runs ----------

  ghost predicate Initial(s: System) {
    && s.net == {}
    && forall ip | ip in s.hosts :: exists serving, port, n :: s.hosts[ip] == NewHost(ip, serving, port, n)
  }

  /** Any run, under loss, repetition and reordering, whatever the counters do. */
  ghost predicate Trace(ss: seq<System>, ops: seq<Op>) {
    && |ss| == |ops| + 1 && Initial(ss[0])
    && forall n | 0 <= n < |ops| :: Enabled(ss[n], ops[n]) && ss[n+1] == Step(ss[n], ops[n])
  }

  /** A run in which no step clashes. */
  ghost predicate Run(ss: seq<System>, ops: seq<Op>) {
    Trace(ss, ops) && forall n | 0 <= n < |ops| :: !Clash(ss[n], ops[n])
  }

  lemma {:induction false} InitialInv(s: System)
    requires Initial(s)
    ensures Inv(s)
  {
    forall ip | ip in s.hosts ensures s.hosts[ip].ip == ip && HostInv(s.hosts[ip]) && s.hosts[ip].objs == [] {
      var serving, port, n :| s.hosts[ip] == NewHost(ip, serving, port, n);
    }
  }

  lemma {:induction false} PrefixKeeps(ss: seq<System>, ops: seq<Op>, n: nat)
    requires Trace(ss, ops) && n < |ss| && forall k | 0 <= k < n :: !Clash(ss[k], ops[k])
    ensures Inv(ss[n])
  {
    hide Inv, Clash, Step;
    if n == 0 {
      InitialInv(ss[0]);
    } else {
      PrefixKeeps(ss, ops, n - 1);
      assert ss[n-1+1] == Step(ss[n-1], ops[n-1]);
      StepKeeps(ss[n-1], ops[n-1]);
    }
  }

  lemma {:induction false} RunsKeep(ss: seq<System>, ops: seq<Op>, n: nat)
    requires Run(ss, ops) && n < |ss|
    ensures Inv(ss[n])
  {
    hide Inv, Clash, Step;
    PrefixKeeps(ss, ops, n);
  }

  /** Of all runs, exactly those without a clash keep the invariant throughout. */
  lemma {:induction false} RunIff(ss: seq<System>, ops: seq<Op>)
    requires Trace(ss, ops)
    ensures Run(ss, ops) <==> forall n | 0 <= n < |ss| :: Inv(ss[n])
  {
    hide Inv, Clash, Step;
    if Run(ss, ops) {
      forall n | 0 <= n < |ss| ensures Inv(ss[n]) {
        RunsKeep(ss, ops, n);
      }
    } else {
      var n :| 0 <= n < |ops| && Clash(ss[n], ops[n]);
      if Inv(ss[n]) {
        StepKeepsIff(ss[n], ops[n]);
        assert !Inv(ss[n+1]);
      }
    }
  }
}

/** What the handshake and the dispatch guarantee in every run without a clash. */
module HandshakeTheorems {
  import opened ConnId
  import opened HandshakeModel
  import opened HandshakeInv

  /**
   Objects `r` of `ip` and `r2` of its peer are the two ends of one connection, each filed under the id
   that packets from the other carry.
   */
  ghost predicate Agreed(s: System, ip: Ip, r: nat, r2: nat) {
    && ip in s.hosts && r < |s.hosts[ip].objs|
    && var c := s.hosts[ip].objs[r];
       && c.peer in s.hosts && r2 < |s.hosts[c.peer].objs|
       && var c2 := s.hosts[c.peer].objs[r2];
          && c.role == Client && c2.role == Server && Mirrors(ip, c, c.peer, c2)
          && c.id == IdOf(c.peer, c2.udpPort, c.udpPort) && c2.id == IdOf(ip, c.udpPort, c2.udpPort)
          && c.id in s.hosts[ip].conns && s.hosts[ip].conns[c.id] == r
          && c2.id in s.hosts[c.peer].conns && s.hosts[c.peer].conns[c2.id] == r2
  }

  /** Agreement: when `connect` has returned, the server's table holds the mirror connection. */
  lemma {:induction false} ConnectAgrees(ss: seq<System>, ops: seq<Op>, n: nat, ip: Ip, r: nat)
    requires Run(ss, ops) && n < |ss| && ip in ss[n].hosts
    requires Settled(ss[n].hosts[ip], r) && ss[n].hosts[ip].objs[r].role == Client
    ensures exists r2 :: Agreed(ss[n], ip, r, r2)
  {
    hide Run, IdOf, HostInv, PktInv;
    var s := ss[n];
    RunsKeep(ss, ops, n);
    SettledId(s.hosts[ip], r);
    var c := s.hosts[ip].objs[r];
    assert EndInv(s, ip, r);
    var r2 :| HasServerEnd(s, ip, c, r2);
    ServersSettled(s.hosts[c.peer], r2);
    SettledId(s.hosts[c.peer], r2);
    assert Agreed(s, ip, r, r2);
  }

  /** The two ends have no other partner: no host has a second connection between the same two ports. */
  lemma {:induction false} PartnersUnique(ss: seq<System>, ops: seq<Op>, n: nat, ip: Ip, r: nat, r': nat)
    requires Run(ss, ops) && n < |ss| && ip in ss[n].hosts
    requires Settled(ss[n].hosts[ip], r) && Settled(ss[n].hosts[ip], r')
    requires var c, c' := ss[n].hosts[ip].objs[r], ss[n].hosts[ip].objs[r'];
             c.peer == c'.peer && c.outPort == c'.outPort && c.udpPort == c'.udpPort
    ensures r == r'
  {
    hide Run, IdOf, HostInv, PktInv, EndInv;
    RunsKeep(ss, ops, n);
    SettledId(ss[n].hosts[ip], r);
    SettledId(ss[n].hosts[ip], r');
  }

  /** Another object of the host has the same local port. */
  ghost predicate SharesPort(h: Host, r: nat)
    requires r < |h.objs|
  {
    exists q :: 0 <= q < |h.objs| && q != r && h.objs[q].udpPort == h.objs[r].udpPort
  }

  /**
   No misrouting: a data packet is dropped or reaches the object that mirrors its sender, and the two are
   the ends of one connection, unless two server ends face each other and both hosts use a local port twice.
   */
  lemma {:induction false} RoutedToPeer(ss: seq<System>, ops: seq<Op>, n: nat, p: Pkt, t: nat)
    returns (x: nat, y: nat)
    requires Run(ss, ops) && n < |ss| && p in ss[n].net && p.body == Data && p.dst in ss[n].hosts
    requires t < |ss[n].hosts[p.dst].threads| && PktId(p) in ss[n].hosts[p.dst].threads[t]
    ensures var s := ss[n];
            && p.src in s.hosts && DataFrom(s.hosts[p.src], p, x)
            && y == s.hosts[p.dst].threads[t][PktId(p)] && y < |s.hosts[p.dst].objs|
            && Mirrors(p.src, s.hosts[p.src].objs[x], p.dst, s.hosts[p.dst].objs[y])
            && (Agreed(s, p.src, x, y) || Agreed(s, p.dst, y, x) ||
                (SharesPort(s.hosts[p.src], x) && SharesPort(s.hosts[p.dst], y)))
  {
    hide Run, IdOf, HostInv;
    var s := ss[n];
    RunsKeep(ss, ops, n);
    assert PktInv(s, p);
    x :| DataFrom(s.hosts[p.src], p, x);
    y := s.hosts[p.dst].threads[t][PktId(p)];
    RouteEnds(s, p, t);
    EndsAgree(s, p.src, x, p.dst, y);
  }

  /** Of two settled objects that mirror each other one dialled and one accepted, or both share their ports. */
  lemma {:induction false} EndsAgree(s: System, a: Ip, x: nat, b: Ip, y: nat)
    requires Inv(s) && a in s.hosts && b in s.hosts && Settled(s.hosts[a], x) && Settled(s.hosts[b], y)
    requires Mirrors(a, s.hosts[a].objs[x], b, s.hosts[b].objs[y])
    ensures Agreed(s, a, x, y) || Agreed(s, b, y, x) ||
            (SharesPort(s.hosts[a], x) && SharesPort(s.hosts[b], y))
  {
    hide IdOf, HostInv, PktInv, EndInv, SharesPort;
    SettledId(s.hosts[a], x);
    SettledId(s.hosts[b], y);
    match (s.hosts[a].objs[x].role, s.hosts[b].objs[y].role)
    case (Client, Server) => assert Agreed(s, a, x, y);
    case (Server, Client) => assert Agreed(s, b, y, x);
    case (Client, Client) => NotBothClients(s, a, x, b, y);
    case (Server, Server) =>
      FacingServers(s, a, x, b, y);
      FacingServers(s, b, y, a, x);
  }

  /** A client's server end has the id the facing client would have. */
  lemma {:induction false} NotBothClients(s: System, a: Ip, x: nat, b: Ip, y: nat)
    requires Inv(s) && a in s.hosts && b in s.hosts && Settled(s.hosts[a], x) && Settled(s.hosts[b], y)
    requires Mirrors(a, s.hosts[a].objs[x], b, s.hosts[b].objs[y]) && s.hosts[a].objs[x].role == Client
    ensures s.hosts[b].objs[y].role == Server
  {
    hide IdOf, HostInv, PktInv;
    SettledId(s.hosts[a], x);
    SettledId(s.hosts[b], y);
    assert EndInv(s, a, x);
    var r2 :| HasServerEnd(s, a, s.hosts[a].objs[x], r2);
    ServersSettled(s.hosts[b], r2);
    SettledId(s.hosts[b], r2);
  }

  /** A server end was dialled from the local port of the server end that faces it. */
  lemma {:induction false} FacingServers(s: System, a: Ip, x: nat, b: Ip, y: nat)
    requires Inv(s) && a in s.hosts && b in s.hosts && Settled(s.hosts[a], x) && Settled(s.hosts[b], y)
    requires Mirrors(a, s.hosts[a].objs[x], b, s.hosts[b].objs[y])
    requires s.hosts[a].objs[x].role == Server && s.hosts[b].objs[y].role == Server
    ensures SharesPort(s.hosts[b], y)
  {
    hide IdOf, HostInv, PktInv;
    assert EndInv(s, a, x);
    var c := s.hosts[a].objs[x];
    var q: nat :| Dialler(s.hosts[c.peer], a, c.outPort, q);
    assert q != y && s.hosts[b].objs[q].udpPort == s.hosts[b].objs[y].udpPort;
  }

  /** A reply made by swapping the addresses of a request carries the id under which the sender files it. */
  lemma {:induction false} ReplyFindsSender(ss: seq<System>, ops: seq<Op>, n: nat, p: Pkt) returns (x: nat)
    requires Run(ss, ops) && n < |ss| && p in ss[n].net && p.body == Data
    ensures var s := ss[n];
            && p.src in s.hosts && DataFrom(s.hosts[p.src], p, x)
            && PktId(SwapAddresses(p)) == s.hosts[p.src].objs[x].id
            && PktId(SwapAddresses(p)) in s.hosts[p.src].conns && s.hosts[p.src].conns[PktId(SwapAddresses(p))] == x
  {
    hide Run, IdOf, HostInv;
    var s := ss[n];
    RunsKeep(ss, ops, n);
    assert PktInv(s, p);
    x :| DataFrom(s.hosts[p.src], p, x);
    SettledId(s.hosts[p.src], x);
  }

  /** A repeated dial builds nothing, forgets nothing and is answered with the port assigned before. */
  lemma {:induction false} DialledAgain(ss: seq<System>, ops: seq<Op>, n: nat, ip: Ip, id: Id) returns (r: nat)
    requires Run(ss, ops) && n < |ss| && ip in ss[n].hosts
    requires ss[n].hosts[ip].serving && id in ss[n].hosts[ip].accepted
    ensures var h := ss[n].hosts[ip];
            var (h', sent) := Accept(h, id);
            && r < |h.objs| && h.objs[r].role == Server && h.objs[r].id == h.accepted[id]
            && h' == h.(s := h.s + 1) && sent == {AckOf(h, h.objs[r])}
  {
    hide Run, IdOf;
    RunsKeep(ss, ops, n);
    var h := ss[n].hosts[ip];
    r := AcceptedObj(h, id);
    assert AcceptedInv(h, id);
  }

  /** What a dialled id was answered with never changes, and neither does the connection behind it. */
  lemma {:induction false} AcceptedForGood(ss: seq<System>, ops: seq<Op>, m: nat, n: nat, ip: Ip, id: Id)
    requires Run(ss, ops) && m <= n < |ss| && ip in ss[m].hosts && id in ss[m].hosts[ip].accepted
    ensures ip in ss[n].hosts && id in ss[n].hosts[ip].accepted
    ensures ss[n].hosts[ip].accepted[id] == ss[m].hosts[ip].accepted[id]
    ensures var v := ss[m].hosts[ip].accepted[id];
            var h, h' := ss[m].hosts[ip], ss[n].hosts[ip];
            v in h.conns && h.conns[v] < |h.objs| <= |h'.objs| && h'.objs[h.conns[v]] == h.objs[h.conns[v]]
  {
    hide Run, Inv, IdOf, Clash;
    RunsKeep(ss, ops, m);
    var h := ss[m].hosts[ip];
    var r := AcceptedHere(ss[m], ip, id);
    if m < n {
      AcceptedForGood(ss, ops, m, n - 1, ip, id);
      RunsKeep(ss, ops, n - 1);
      RunStep(ss, ops, n - 1);
      StepKeepsObj(ss[n-1], ops[n-1], ip, r, id);
    }
  }

  lemma {:induction false} AcceptedHere(s: System, ip: Ip, id: Id) returns (r: nat)
    requires Inv(s) && ip in s.hosts && id in s.hosts[ip].accepted
    ensures var h := s.hosts[ip];
            h.accepted[id] in h.conns && h.conns[h.accepted[id]] == r && r < |h.objs| && h.objs[r].role == Server
  {
    hide HostInv, EndInv, PktInv;
    r := AcceptedObj(s.hosts[ip], id);
  }

  lemma {:induction false} RunStep(ss: seq<System>, ops: seq<Op>, n: nat)
    requires Run(ss, ops) && n < |ss| - 1
    ensures n < |ops| && Enabled(ss[n], ops[n]) && ss[n+1] == Step(ss[n], ops[n]) && !Clash(ss[n], ops[n])
  {
  }

  lemma {:induction false} StepKeepsObj(s: System, op: Op, ip: Ip, r: nat, id: Id)
    requires Inv(s) && Enabled(s, op) && !Clash(s, op) && ip in s.hosts && id in s.hosts[ip].accepted
    requires r < |s.hosts[ip].objs| && s.hosts[ip].objs[r].role == Server
    ensures var h, h' := s.hosts[ip], Step(s, op).hosts[ip];
            && r < |h'.objs| && |h.objs| <= |h'.objs| && h'.objs[r] == h.objs[r]
            && id in h'.accepted && h'.accepted[id] == h.accepted[id]
  {
    hide HostInv, EndInv, PktInv, IdOf, Announce;
    ServersSettled(s.hosts[ip], r);
  }
}

/** What the event threads know, and that what a client sends is answered. */
module HandshakeTables {
  import opened ConnId
  import opened HandshakeModel
  import opened HandshakeInv
  import opened HandshakeTheorems

  /** Thread `t` has connection `r` in its table, under its id, or still in its ring. */
  ghost predicate Known(h: Host, t: nat, r: nat)
    requires t < |h.rings| == |h.threads| && r < |h.objs|
  {
    r in h.rings[t] || (h.objs[r].id in h.threads[t] && h.threads[t][h.objs[r].id] == r)
  }

  /** Every thread has been told of every connection that is through. */
  ghost predicate AllTold(h: Host) {
    && |h.rings| == |h.threads|
    && forall t, r: nat | 0 <= t < |h.rings| && Settled(h, r) :: Known(h, t, r)
  }

  ghost predicate Told(s: System) {
    forall ip | ip in s.hosts :: AllTold(s.hosts[ip])
  }

  /** Only the object at `r` may be new or changed, and then every thread is told of it. */
  lemma {:induction false} TellingKeeps(h: Host, h': Host, r: nat)
    requires AllTold(h) && Grows(h, h') && h'.threads == h.threads && h'.rings == Announce(h.rings, r)
    requires forall q: nat | Settled(h', q) && q != r :: Settled(h, q)
    ensures AllTold(h')
  {
    forall t, q: nat | 0 <= t < |h'.rings| && Settled(h', q) ensures Known(h', t, q) {
      if q != r {
        assert Known(h, t, q) && h'.objs[q] == h.objs[q];
        assert h'.rings[t] == h.rings[t] + [r];
      } else {
        assert h'.rings[t][|h.rings[t]|] == r;
      }
    }
  }

  lemma {:induction false} NobodyNew(h: Host, h': Host)
    requires AllTold(h) && Grows(h, h') && h'.threads == h.threads && h'.rings == h.rings
    requires forall q: nat | Settled(h', q) :: Settled(h, q)
    ensures AllTold(h')
  {
    forall t, q: nat | 0 <= t < |h'.rings| && Settled(h', q) ensures Known(h', t, q) {
      assert Known(h, t, q) && h'.objs[q] == h.objs[q];
    }
  }

  lemma {:induction false} DialTells(h: Host, server: Ip, port: Port)
    requires HostInv(h) && AllTold(h) && h.dialling == -1 && IdOf(server, port, PortOf(h.u)) !in h.conns
    ensures AllTold(Dial(h, server, port).0)
  {
    hide HostInv, IdOf, PortOf, AllTold;
    DialKeeps(h, server, port);
    NobodyNew(h, Dial(h, server, port).0);
  }

  lemma {:induction false} AcceptTells(h: Host, p: Pkt)
    requires HostInv(h) && AllTold(h) && h.dialling == -1
    requires h.serving && PktId(p) !in h.accepted ==> Incoming(h, PktId(p)).id !in h.conns
    ensures AllTold(Accept(h, PktId(p)).0)
  {
    hide HostInv, IdOf, Incoming, Announce, AllTold, Grows;
    var h' := Accept(h, PktId(p)).0;
    if h.serving {
      if PktId(p) in h.accepted {
        AcceptAgainKeeps(h, PktId(p));
        NobodyNew(h, h');
      } else {
        AcceptNewKeeps(h, p.src, p.sport, p.dport);
        TellingKeeps(h, h', |h.objs|);
      }
    }
  }

  lemma {:induction false} AckTells(h: Host, id: Id, port: Port)
    requires HostInv(h) && AllTold(h) && (id in h.conns ==> !Disturbs(h, h.conns[id], port))
    ensures AllTold(OnAck(h, id, port))
  {
    hide HostInv, AllTold, Grows;
    if id in h.conns {
      if h.conns[id] == h.dialling {
        AckKeeps(h, id, port);
        NobodyNew(h, OnAck(h, id, port));
      } else {
        LateAckQuiet(h, id, port);
      }
    }
  }

  lemma {:induction false} SettleTells(h: Host)
    requires HostInv(h) && AllTold(h) && 0 <= h.dialling && h.objs[h.dialling].connected && SettlesClean(h)
    ensures AllTold(Settle(h))
  {
    hide AllTold, Grows, Filed, Remembers, ThreadsOk, WithRemote, Swap, Announce;
    SettleKeeps(h);
    TellingKeeps(h, Settle(h), h.dialling);
  }

  /** Taking one connection from the ring loses no other: no two that are through have one id. */
  lemma {:induction false} InstallTells(h: Host, t: nat)
    requires HostInv(h) && AllTold(h) && t < |h.rings| == |h.threads| && h.rings[t] != [] && h.rings[t][0] < |h.objs|
    ensures AllTold(Install(h, t))
  {
    hide IdOf, Filed, Remembers;
    var h' := Install(h, t);
    var x := h.rings[t][0];
    assert RingInv(h, h.rings[t]);
    SettledId(h, x);
    forall k, q: nat | 0 <= k < |h'.rings| && Settled(h', q) ensures Known(h', k, q) {
      assert Known(h, k, q);
      SettledId(h, q);
      if k == t && q in h.rings[t] && q != x {
        assert h.rings[t] == [x] + h'.rings[t];
      }
    }
  }

  lemma {:induction false} StepTells(s: System, op: Op)
    requires Inv(s) && Told(s) && Enabled(s, op) && !Clash(s, op)
    ensures Told(Step(s, op))
  {
    hide AllTold, HostInv, PktInv, EndInv, IdOf, Dial, Accept, OnAck, Settle, Install, Incoming, Disturbs;
    var h := s.hosts[At(op)];
    assert HostInv(h) && AllTold(h);
    match op
    case OpDial(ip, server, port) => DialTells(h, server, port);
    case OpSettle(ip) => SettleTells(h);
    case OpInstall(ip, t) => InstallTells(h, t);
    case OpReceive(pkt) =>
      match pkt.body {
        case Con => AcceptTells(h, pkt);
        case ConAck(p) => AckTells(h, PktId(pkt), p);
        case Data =>
      }
    case _ =>
  }

  /** In every run without a clash, every thread has every connection that is through, in its table or its ring. */
  lemma {:induction false} RunsTell(ss: seq<System>, ops: seq<Op>, n: nat)
    requires Run(ss, ops) && n < |ss|
    ensures Told(ss[n])
  {
    hide Inv, Clash, Step, Told;
    if n == 0 {
      InitialTold(ss[0]);
    } else {
      RunsTell(ss, ops, n - 1);
      RunsKeep(ss, ops, n - 1);
      assert ss[n-1+1] == Step(ss[n-1], ops[n-1]) && !Clash(ss[n-1], ops[n-1]);
      StepTells(ss[n-1], ops[n-1]);
    }
  }

  lemma {:induction false} InitialTold(s: System)
    requires Initial(s)
    ensures Told(s)
  {
    forall ip | ip in s.hosts ensures AllTold(s.hosts[ip]) {
      var serving, port, n :| s.hosts[ip] == NewHost(ip, serving, port, n);
    }
  }

  /** A thread whose ring is empty finds every connection that is through under the id of its peer's packets. */
  lemma {:induction false} Found(s: System, ip: Ip, t: nat, r: nat)
    requires Inv(s) && Told(s) && ip in s.hosts && t < |s.hosts[ip].rings| && Settled(s.hosts[ip], r)
    requires s.hosts[ip].rings[t] == []
    ensures var h := s.hosts[ip];
            var c := h.objs[r];
            && t < |h.threads| && IdOf(c.peer, c.outPort, c.udpPort) in h.threads[t]
            && h.threads[t][IdOf(c.peer, c.outPort, c.udpPort)] == r
  {
    hide IdOf, HostInv, PktInv, EndInv;
    var h := s.hosts[ip];
    assert AllTold(h) && Known(h, t, r);
    SettledId(h, r);
  }

  /**
   Once `connect` has returned and a thread of the server has emptied its ring, the client can send; that
   thread finds the other end and answers; a thread of the client whose ring is empty finds the answer.
   */
  lemma {:induction false} CallIsAnswered(ss: seq<System>, ops: seq<Op>, n: nat, ip: Ip, r: nat, t: nat)
    returns (r2: nat)
    requires Run(ss, ops) && n < |ss| && ip in ss[n].hosts
    requires Settled(ss[n].hosts[ip], r) && ss[n].hosts[ip].objs[r].role == Client
    requires var c := ss[n].hosts[ip].objs[r];
             c.peer in ss[n].hosts ==> t < |ss[n].hosts[c.peer].rings| && ss[n].hosts[c.peer].rings[t] == []
    ensures Agreed(ss[n], ip, r, r2) && Enabled(ss[n], OpSend(ip, r))
    ensures var c := ss[n].hosts[ip].objs[r];
            var s', p := Step(ss[n], OpSend(ip, r)), Pkt(ip, c.udpPort, c.peer, c.outPort, Data);
            && c.peer in s'.hosts && t < |s'.hosts[c.peer].threads|
            && PktId(p) in s'.hosts[c.peer].threads[t] && s'.hosts[c.peer].threads[t][PktId(p)] == r2
            && p in s'.net && Answers(s', p, t, ip, r)
  {
    hide Run, IdOf, HostInv, PktInv, EndInv, Agreed, Told;
    var s := ss[n];
    RunsKeep(ss, ops, n);
    RunsTell(ss, ops, n);
    ConnectAgrees(ss, ops, n, ip, r);
    r2 :| Agreed(s, ip, r, r2);
    var c := s.hosts[ip].objs[r];
    AgreedEnds(s, ip, r, r2);
    Found(s, c.peer, t, r2);
    SendOnly(s, ip, r);
    var s' := Step(s, OpSend(ip, r));
    Answered(s', Pkt(ip, c.udpPort, c.peer, c.outPort, Data), t, ip, r);
  }

  /** Sending puts the data packet on the network and changes no host. */
  lemma {:induction false} SendOnly(s: System, ip: Ip, r: nat)
    requires Inv(s) && Told(s) && ip in s.hosts && Settled(s.hosts[ip], r)
    ensures var c, s' := s.hosts[ip].objs[r], Step(s, OpSend(ip, r));
            && s'.hosts == s.hosts && Pkt(ip, c.udpPort, c.peer, c.outPort, Data) in s'.net && Inv(s') && Told(s')
  {
    hide HostInv, IdOf, PktInv, EndInv, AllTold;
    StepKeeps(s, OpSend(ip, r));
    assert s.hosts[ip := s.hosts[ip]] == s.hosts;
    assert s.hosts[ip].ip == ip;
  }

  /** A thread can take from its ring as long as there is something in it. */
  lemma {:induction false} CanInstall(s: System, ip: Ip, t: nat)
    requires Inv(s) && ip in s.hosts && t < |s.hosts[ip].rings| && s.hosts[ip].rings[t] != []
    ensures Enabled(s, OpInstall(ip, t)) && !Clash(s, OpInstall(ip, t))
    ensures var h' := Step(s, OpInstall(ip, t)).hosts[ip];
            t < |h'.rings| && h'.rings[t] == s.hosts[ip].rings[t][1..]
  {
    hide Filed, Remembers, PktInv, EndInv;
    var h := s.hosts[ip];
    assert HostInv(h) && RingInv(h, h.rings[t]);
    assert Settled(h, h.rings[t][0]);
  }

  lemma {:induction false} AgreedEnds(s: System, ip: Ip, r: nat, r2: nat)
    requires Inv(s) && Agreed(s, ip, r, r2)
    ensures s.hosts[ip].objs[r].peer in s.hosts && r2 < |s.hosts[s.hosts[ip].objs[r].peer].objs|
    ensures var c := s.hosts[ip].objs[r];
            var c2 := s.hosts[c.peer].objs[r2];
            Settled(s.hosts[c.peer], r2) && c2.peer == ip && c2.outPort == c.udpPort && c2.udpPort == c.outPort
  {
    hide IdOf, HostInv, PktInv, EndInv;
    ServersSettled(s.hosts[s.hosts[ip].objs[r].peer], r2);
  }

  /** The step that answers `p` is possible and sends what a thread of `ip` with an empty ring finds `r` for. */
  ghost predicate Answers(s: System, p: Pkt, t: nat, ip: Ip, r: nat) {
    && Enabled(s, OpReply(p, t))
    && var back := Pkt(p.dst, p.dport, p.src, p.sport, p.body);
       && back in Step(s, OpReply(p, t)).net
       && forall k: nat | ip in s.hosts && k < |s.hosts[ip].rings| && s.hosts[ip].rings[k] == [] ::
            k < |s.hosts[ip].threads| && PktId(back) in s.hosts[ip].threads[k] &&
            s.hosts[ip].threads[k][PktId(back)] == r
  }

  lemma {:induction false} Answered(s: System, p: Pkt, t: nat, ip: Ip, r: nat)
    requires Inv(s) && Told(s) && ip in s.hosts && Settled(s.hosts[ip], r)
    requires var c := s.hosts[ip].objs[r]; p == Pkt(ip, c.udpPort, c.peer, c.outPort, Data)
    requires Enabled(s, OpReply(p, t))
    ensures Answers(s, p, t, ip, r)
  {
    hide IdOf, Inv, Told;
    forall k: nat | k < |s.hosts[ip].rings| && s.hosts[ip].rings[k] == []
      ensures var back := Pkt(p.dst, p.dport, p.src, p.sport, p.body);
              k < |s.hosts[ip].threads| && PktId(back) in s.hosts[ip].threads[k] &&
              s.hosts[ip].threads[k][PktId(back)] == r
    {
      Found(s, ip, k, r);
    }
  }
}

/** Which ports the two counters of a host give out, and what that means for clashes. */
module HandshakePorts {
  import opened ConnId
  import opened HandshakeModel
  import opened HandshakeInv
  import opened HandshakeTheorems

  function Counter(h: Host, role: Role): nat {
    if role == Server then h.s else h.u
  }

  function First(role: Role): nat {
    if role == Server then S_START else U_START
  }

  /** The connections of one side have distinct ports below that side's counter. */
  ghost predicate PortsApart(h: Host, role: Role) {
    && First(role) <= Counter(h, role)
    && (forall r | 0 <= r < |h.objs| && h.objs[r].role == role :: First(role) <= h.objs[r].udpPort < Counter(h, role))
    && (forall q, r | 0 <= q < r < |h.objs| && h.objs[q].role == role && h.objs[r].role == role ::
          h.objs[q].udpPort != h.objs[r].udpPort)
  }

  /** A step adds at most one connection, at the port its side's counter stands at; the others keep their ports. */
  ghost predicate Moves(h: Host, h': Host) {
    && h.s <= h'.s && h.u <= h'.u && |h.objs| <= |h'.objs| <= |h.objs| + 1
    && (forall r | 0 <= r < |h.objs| :: SameStem(h.objs[r], h'.objs[r]))
    && (|h.objs| < |h'.objs| ==>
          var c := h'.objs[|h.objs|];
          c.udpPort == PortOf(Counter(h, c.role)) && Counter(h, c.role) < Counter(h', c.role))
  }

  lemma {:induction false} StepMoves(s: System, op: Op, ip: Ip)
    requires Enabled(s, op) && ip in s.hosts
    ensures ip in Step(s, op).hosts && Moves(s.hosts[ip], Step(s, op).hosts[ip])
  {
    hide IdOf, Swap, WithLocal, WithRemote, IpOf, RemoteOf, Announce, PortOf;
  }

  lemma {:induction false} PortsStayApart(h: Host, h': Host, role: Role)
    requires Moves(h, h') && PortsApart(h, role) && Counter(h', role) <= K16
    ensures PortsApart(h', role)
  {
    forall r | 0 <= r < |h'.objs| && h'.objs[r].role == role
      ensures First(role) <= h'.objs[r].udpPort < Counter(h', role)
      ensures r < |h.objs| ==> h'.objs[r].udpPort == h.objs[r].udpPort < Counter(h, role)
      ensures r == |h.objs| ==> h'.objs[r].udpPort == Counter(h, role)
    {
      if r < |h.objs| {
        assert SameStem(h.objs[r], h'.objs[r]);
      }
    }
    forall r | 0 <= r < |h.objs| && h'.objs[r].role == role ensures h.objs[r].role == role {
      assert SameStem(h.objs[r], h'.objs[r]);
    }
  }

  /** In every run, clashes or not, both sides' ports are distinct until the counter has run through 16 bits. */
  lemma {:induction false} PortsDistinct(ss: seq<System>, ops: seq<Op>, n: nat, ip: Ip, role: Role)
    requires Trace(ss, ops) && n < |ss| && ip in ss[n].hosts && Counter(ss[n].hosts[ip], role) <= K16
    ensures PortsApart(ss[n].hosts[ip], role)
  {
    hide PortsApart;
    if n == 0 {
      FreshApart(ss[0], ip, role);
    } else {
      assert ss[n-1+1] == Step(ss[n-1], ops[n-1]);
      SameHosts(ss[n-1], ops[n-1]);
      StepMoves(ss[n-1], ops[n-1], ip);
      PortsDistinct(ss, ops, n - 1, ip, role);
      PortsStayApart(ss[n-1].hosts[ip], ss[n].hosts[ip], role);
    }
  }

  lemma {:induction false} FreshApart(s: System, ip: Ip, role: Role)
    requires Initial(s) && ip in s.hosts
    ensures PortsApart(s.hosts[ip], role)
  {
    var serving, port, n :| s.hosts[ip] == NewHost(ip, serving, port, n);
  }

  ghost predicate AllApart(s: System) {
    forall ip, role | ip in s.hosts :: PortsApart(s.hosts[ip], role)
  }

  // ---------- when a step clashes ----------

  /** Object `r` is through, between `mine` here and `theirs` at `peer`. */
  ghost predicate Between(h: Host, r: nat, peer: Ip, theirs: Port, mine: Port) {
    Settled(h, r) && h.objs[r].peer == peer && h.objs[r].outPort == theirs && h.objs[r].udpPort == mine
  }

  /** Port `p` has been given out by both counters. */
  predicate InBoth(h: Host, p: int) {
    U_START <= p < h.u && p < h.s
  }

  lemma {:induction false} IdInUse(h: Host, peer: Ip, theirs: Port, mine: Port)
    requires HostInv(h) && h.dialling == -1
    ensures IdOf(peer, theirs, mine) in h.conns <==> exists r :: Between(h, r, peer, theirs, mine)
  {
    hide IdOf, Remembers, ThreadsOk, ObjInv;
    var id := IdOf(peer, theirs, mine);
    if id in h.conns {
      var r := h.conns[id];
      SettledId(h, r);
      IdInjective(peer, theirs, mine, h.objs[r].peer, h.objs[r].outPort, h.objs[r].udpPort);
      assert Between(h, r, peer, theirs, mine);
    }
    if r :| Between(h, r, peer, theirs, mine) {
      SettledId(h, r);
    }
  }

  /** The client connection `r` has its other end at a port its server gave out. */
  lemma {:induction false} ServerPort(s: System, ip: Ip, r: nat)
    requires Inv(s) && AllApart(s) && ip in s.hosts && Settled(s.hosts[ip], r) && s.hosts[ip].objs[r].role == Client
    ensures var c := s.hosts[ip].objs[r];
            c.peer in s.hosts && S_START <= c.outPort < s.hosts[c.peer].s && U_START <= c.udpPort < s.hosts[ip].u
  {
    hide HostInv, PktInv, IdOf;
    var c := s.hosts[ip].objs[r];
    SettledId(s.hosts[ip], r);
    assert EndInv(s, ip, r);
    var r2 :| HasServerEnd(s, ip, c, r2);
    assert PortsApart(s.hosts[c.peer], Server) && PortsApart(s.hosts[ip], Client);
  }

  /** The server connection `r` has its other end at a port its client dialled from. */
  lemma {:induction false} ClientPort(s: System, ip: Ip, r: nat)
    requires Inv(s) && AllApart(s) && ip in s.hosts && r < |s.hosts[ip].objs| && s.hosts[ip].objs[r].role == Server
    ensures var c := s.hosts[ip].objs[r];
            c.peer in s.hosts && U_START <= c.outPort < s.hosts[c.peer].u && S_START <= c.udpPort < s.hosts[ip].s
  {
    hide HostInv, PktInv, IdOf;
    var c := s.hosts[ip].objs[r];
    assert EndInv(s, ip, r);
    var q :| Dialler(s.hosts[c.peer], ip, c.outPort, q);
    assert PortsApart(s.hosts[c.peer], Client) && PortsApart(s.hosts[ip], Server);
  }

  /** A client connection that is through between these ports. */
  ghost predicate ClientBetween(h: Host, r: nat, peer: Ip, theirs: Port, mine: Port) {
    Between(h, r, peer, theirs, mine) && h.objs[r].role == Client
  }

  ghost predicate ServerBetween(h: Host, r: nat, peer: Ip, theirs: Port, mine: Port) {
    Between(h, r, peer, theirs, mine) && h.objs[r].role == Server
  }

  /**
   Accepting a new id overwrites an entry exactly when the host has itself dialled that peer and is
   connected between the very same ports; then both hosts gave the port in question out on both sides.
   */
  lemma {:induction false} AcceptClashIff(s: System, p: Pkt)
    requires Inv(s) && AllApart(s) && Enabled(s, OpReceive(p)) && p.body.Con? && s.hosts[p.dst].s < K16
    requires s.hosts[p.dst].serving && PktId(p) !in s.hosts[p.dst].accepted
    ensures Clash(s, OpReceive(p)) <==>
            exists r :: ClientBetween(s.hosts[p.dst], r, p.src, p.sport, s.hosts[p.dst].s)
    ensures Clash(s, OpReceive(p)) ==>
            U_START <= s.hosts[p.dst].s < s.hosts[p.dst].u && p.src in s.hosts && InBoth(s.hosts[p.src], p.sport)
  {
    hide HostInv, PktInv, EndInv, IdOf, WithLocal, Swap, IpOf, RemoteOf;
    var h := s.hosts[p.dst];
    IncomingIs(h, p.src, p.sport, p.dport);
    IdInUse(h, p.src, p.sport, h.s);
    assert PortsApart(h, Server) && PktInv(s, p);
    if r :| Between(h, r, p.src, p.sport, h.s) {
      assert ClientBetween(h, r, p.src, p.sport, h.s);
      ServerPort(s, p.dst, r);
      ConPort(s, p);
    }
  }

  lemma {:induction false} ConPort(s: System, p: Pkt)
    requires Inv(s) && AllApart(s) && p in s.net && p.body.Con?
    ensures p.src in s.hosts && U_START <= p.sport < s.hosts[p.src].u
  {
    hide HostInv, EndInv, IdOf;
    assert PktInv(s, p);
    var q :| Dialler(s.hosts[p.src], p.dst, p.sport, q);
    assert PortsApart(s.hosts[p.src], Client);
  }

  /** Dialling overwrites an entry exactly when the peer has dialled this host between the very same ports. */
  lemma {:induction false} DialClashIff(s: System, ip: Ip, server: Ip, port: Port)
    requires Inv(s) && AllApart(s) && Enabled(s, OpDial(ip, server, port)) && s.hosts[ip].u < K16
    ensures Clash(s, OpDial(ip, server, port)) <==>
            exists r :: ServerBetween(s.hosts[ip], r, server, port, s.hosts[ip].u)
    ensures Clash(s, OpDial(ip, server, port)) ==>
            U_START <= s.hosts[ip].u < s.hosts[ip].s && server in s.hosts && U_START <= port < s.hosts[server].u
  {
    hide HostInv, PktInv, EndInv, IdOf;
    var h := s.hosts[ip];
    IdInUse(h, server, port, h.u);
    assert PortsApart(h, Client);
    if r :| Between(h, r, server, port, h.u) {
      assert ServerBetween(h, r, server, port, h.u);
      ClientPort(s, ip, r);
    }
  }

  /** `connect` ends without its entry exactly when the peer has dialled this host between the ports assigned. */
  lemma {:induction false} SettleClashIff(s: System, ip: Ip)
    requires Inv(s) && AllApart(s) && Enabled(s, OpSettle(ip))
    ensures var h := s.hosts[ip];
            var c := h.objs[h.dialling];
            && (Clash(s, OpSettle(ip)) <==> exists r :: ServerBetween(h, r, c.peer, c.outPort, c.udpPort))
            && (Clash(s, OpSettle(ip)) ==>
                  InBoth(h, c.udpPort) && c.peer in s.hosts && InBoth(s.hosts[c.peer], c.outPort))
  {
    hide HostInv, PktInv, EndInv, IdOf, WithRemote, Swap;
    var h := s.hosts[ip];
    var c := h.objs[h.dialling];
    SettledIdIs(h);
    var id := IdOf(c.peer, c.outPort, c.udpPort);
    assert PortsApart(h, Client);
    if Clash(s, OpSettle(ip)) {
      var r := SettleHits(h, id);
      assert ServerBetween(h, r, c.peer, c.outPort, c.udpPort);
    }
    if r :| ServerBetween(h, r, c.peer, c.outPort, c.udpPort) {
      SettledId(h, r);
      DiallingFiled(h);
      ClientPort(s, ip, r);
      SettlingPort(s, ip);
    }
  }

  lemma {:induction false} DiallingFiled(h: Host)
    requires HostInv(h) && 0 <= h.dialling
    ensures h.objs[h.dialling].id in h.conns && h.conns[h.objs[h.dialling].id] == h.dialling
  {
    hide IdOf, Remembers, ThreadsOk;
    assert ObjInv(h, h.dialling);
  }

  /** The entry in the way belongs to a server connection, as clients have distinct ports. */
  lemma {:induction false} SettleHits(h: Host, id: Id) returns (r: nat)
    requires HostInv(h) && PortsApart(h, Client) && 0 <= h.dialling
    requires var c := h.objs[h.dialling];
             c.role == Client && id == IdOf(c.peer, c.outPort, c.udpPort) && id in h.conns - {c.id}
    ensures var c := h.objs[h.dialling]; ServerBetween(h, r, c.peer, c.outPort, c.udpPort)
  {
    hide IdOf, Remembers, ThreadsOk, ObjInv;
    var c := h.objs[h.dialling];
    r := h.conns[id];
    DiallingFiled(h);
    SettledId(h, r);
    IdInjective(c.peer, c.outPort, c.udpPort, h.objs[r].peer, h.objs[r].outPort, h.objs[r].udpPort);
  }

  lemma {:induction false} SettlingPort(s: System, ip: Ip)
    requires Inv(s) && AllApart(s) && Enabled(s, OpSettle(ip))
    ensures var c := s.hosts[ip].objs[s.hosts[ip].dialling];
            c.peer in s.hosts && S_START <= c.outPort < s.hosts[c.peer].s && U_START <= c.udpPort < s.hosts[ip].u
  {
    hide HostInv, PktInv, IdOf;
    var h := s.hosts[ip];
    var c := h.objs[h.dialling];
    DiallingIsClient(h);
    assert EndInv(s, ip, h.dialling);
    var r2 :| HasServerEnd(s, ip, c, r2);
    assert PortsApart(s.hosts[c.peer], Server) && PortsApart(h, Client);
  }

  /**
   An acknowledgement changes a connection that is through exactly when it reaches a server connection, or a
   client connection that was assigned the server's configured port and the acknowledgement says another.
   */
  lemma {:induction false} AckClashIff(s: System, p: Pkt)
    requires Inv(s) && AllApart(s) && Enabled(s, OpReceive(p)) && p.body.ConAck?
    ensures Clash(s, OpReceive(p)) <==>
            || (exists r :: ServerBetween(s.hosts[p.dst], r, p.src, p.sport, p.dport))
            || (p.body.port != p.sport && exists r :: ClientBetween(s.hosts[p.dst], r, p.src, p.sport, p.dport))
    ensures Clash(s, OpReceive(p)) ==>
            && p.src in s.hosts && p.sport == s.hosts[p.src].port
            && (InBoth(s.hosts[p.dst], p.dport) || S_START <= s.hosts[p.src].port < s.hosts[p.src].s)
  {
    hide HostInv, EndInv, IdOf;
    var h := s.hosts[p.dst];
    assert PktInv(s, p);
    var rs :| AckFrom(s, p, p.body.port, rs);
    ClientPort(s, p.src, rs);
    if PktId(p) in h.conns && h.conns[PktId(p)] != h.dialling {
      var r := h.conns[PktId(p)];
      AckReaches(s, p);
      assert Between(h, r, p.src, p.sport, p.dport);
      if h.objs[r].role == Client {
        assert ClientBetween(h, r, p.src, p.sport, p.dport);
        ServerPort(s, p.dst, r);
      } else {
        assert ServerBetween(h, r, p.src, p.sport, p.dport);
        ClientPort(s, p.dst, r);
      }
    }
    forall r: nat | Between(h, r, p.src, p.sport, p.dport) ensures PktId(p) in h.conns && h.conns[PktId(p)] == r {
      SettledId(h, r);
    }
  }

  // ---------- counters that keep clear of each other ----------

  /**
   The counters have not left 16 bits, the server counter has not passed the first client port unless the host has
   never dialled, and the configured port has not been assigned.
   */
  ghost predicate Clear(h: Host) {
    && h.s <= K16 && h.u <= K16
    && (h.s <= U_START || h.u == U_START)
    && !(S_START <= h.port < h.s)
  }

  lemma {:induction false} ClearStep(s: System, op: Op)
    requires Inv(s) && AllApart(s) && Enabled(s, op)
    requires Clear(Step(s, op).hosts[At(op)]) && forall ip | ip in s.hosts :: Clear(s.hosts[ip])
    ensures !Clash(s, op)
  {
    hide Inv, AllApart, IdOf, Announce, Swap, WithLocal, WithRemote, IpOf, RemoteOf, Incoming;
    var h, h' := s.hosts[At(op)], Step(s, op).hosts[At(op)];
    assert Clear(h') && Clear(h);
    match op
    case OpDial(ip, server, port) => DialClashIff(s, ip, server, port);
    case OpSettle(ip) => SettleClashIff(s, ip);
    case OpReceive(pkt) =>
      match pkt.body {
        case Con =>
          if h.serving && PktId(pkt) !in h.accepted {
            AcceptClashIff(s, pkt);
          }
        case ConAck(port) =>
          AckClashIff(s, pkt);
        case Data =>
      }
    case _ =>
  }

  /** Runs in which every host's counters keep clear never clash: all theorems above hold of them. */
  lemma {:induction false} ClearRuns(ss: seq<System>, ops: seq<Op>)
    requires Trace(ss, ops) && forall n, ip | 0 <= n < |ss| && ip in ss[n].hosts :: Clear(ss[n].hosts[ip])
    ensures Run(ss, ops)
  {
    hide Clash, Step;
    forall n | 0 <= n < |ops| ensures !Clash(ss[n], ops[n]) {
      ClearPrefix(ss, ops, n);
    }
  }

  lemma {:induction false} ClearPrefix(ss: seq<System>, ops: seq<Op>, n: nat)
    requires Trace(ss, ops) && forall n, ip | 0 <= n < |ss| && ip in ss[n].hosts :: Clear(ss[n].hosts[ip])
    requires n < |ops|
    ensures forall k | 0 <= k <= n :: !Clash(ss[k], ops[k])
  {
    hide Clash, Step, Inv, PortsApart;
    if n > 0 {
      ClearPrefix(ss, ops, n - 1);
    }
    PrefixKeeps(ss, ops, n);
    forall ip, role | ip in ss[n].hosts ensures PortsApart(ss[n].hosts[ip], role) {
      assert Clear(ss[n].hosts[ip]);
      PortsDistinct(ss, ops, n, ip, role);
    }
    assert ss[n+1] == Step(ss[n], ops[n]);
    SameHosts(ss[n], ops[n]);
    ClearStep(ss[n], ops[n]);
  }

  lemma {:induction false} SameHosts(s: System, op: Op)
    requires Enabled(s, op)
    ensures Step(s, op).hosts.Keys == s.hosts.Keys
  {
    hide Local;
  }

  /** In such runs no local port is used twice, so data packets always reach the other end (`RoutedToPeer`). */
  lemma {:induction false} ClearNeverShares(ss: seq<System>, ops: seq<Op>, n: nat, ip: Ip, r: nat)
    requires Trace(ss, ops) && n < |ss| && ip in ss[n].hosts && Clear(ss[n].hosts[ip]) && r < |ss[n].hosts[ip].objs|
    ensures !SharesPort(ss[n].hosts[ip], r)
  {
    hide Trace;
    PortsDistinct(ss, ops, n, ip, Client);
    PortsDistinct(ss, ops, n, ip, Server);
    var h := ss[n].hosts[ip];
    forall q | 0 <= q < |h.objs| && q != r ensures h.objs[q].udpPort != h.objs[r].udpPort {
      match (h.objs[q].role, h.objs[r].role)
      case (Client, Client) =>
      case (Server, Server) =>
      case (Client, Server) =>
      case (Server, Client) =>
    }
  }
}

/** Runs that show what the conditions exclude. */
module HandshakeRuns {
  import opened ConnId
  import opened HandshakeModel
  import opened HandshakeInv
  import opened HandshakePorts

  /** Some run without a clash ends in `s`. */
  ghost predicate Reached(s: System) {
    exists ss, ops :: EndsIn(ss, ops, s)
  }

  ghost predicate EndsIn(ss: seq<System>, ops: seq<Op>, s: System) {
    Run(ss, ops) && ss[|ops|] == s
  }

  lemma {:induction false} ReachStep(s: System, op: Op)
    requires Reached(s) && Enabled(s, op) && !Clash(s, op)
    ensures Reached(Step(s, op))
  {
    hide Enabled, Step, Clash, Initial;
    var ss, ops :| EndsIn(ss, ops, s);
    var ss', ops' := ss + [Step(s, op)], ops + [op];
    forall n | 0 <= n < |ops'|
      ensures Enabled(ss'[n], ops'[n]) && ss'[n+1] == Step(ss'[n], ops'[n]) && !Clash(ss'[n], ops'[n])
    {
      if n < |ops| {
        assert ss'[n] == ss[n] && ss'[n+1] == ss[n+1] && ops'[n] == ops[n];
      }
    }
    assert EndsIn(ss', ops', Step(s, op));
  }

  /** Two idle hosts without threads; the second one serves. */
  ghost predicate Idle(s: System, a: Ip, b: Ip) {
    && a != b && a in s.hosts && b in s.hosts && s.hosts[a].ip == a && s.hosts[b].ip == b
    && s.hosts[a].dialling == -1 && s.hosts[b].dialling == -1 && s.hosts[b].serving
    && s.hosts[a].rings == [] && s.hosts[b].rings == []
  }

  /** The client object that `a` has while it dials `b`, having heard of port `out`. */
  function Calling(a: Host, b: Ip, dialled: Port, out: Port, heard: bool): Conn {
    Conn(Client, IdOf(b, dialled, PortOf(a.u)), b, out, PortOf(a.u), heard)
  }

  function Called(b: Host, a: Ip, client: Port): Conn {
    Conn(Server, IdOf(a, client, PortOf(b.s)), a, client, PortOf(b.s), false)
  }

  /** `a` while it dials with object `c`. */
  function WhileDialling(a: Host, c: Conn): Host {
    a.(u := a.u + 1, objs := a.objs + [c], conns := a.conns[c.id := |a.objs|], dialling := |a.objs|)
  }

  /** `b` after accepting the dialled id `id` with object `c`. */
  function Accepting(b: Host, id: Id, c: Conn): Host {
    b.(s := b.s + 1, objs := b.objs + [c], conns := b.conns[c.id := |b.objs|], accepted := b.accepted[id := c.id])
  }

  /** `a` dials. */
  lemma {:induction false} Dials(s: System, a: Ip, b: Ip, port: Port) returns (s': System)
    requires Reached(s) && Idle(s, a, b) && IdOf(b, port, PortOf(s.hosts[a].u)) !in s.hosts[a].conns
    ensures Reached(s') && s.net <= s'.net
    ensures s'.hosts == s.hosts[a := WhileDialling(s.hosts[a], Calling(s.hosts[a], b, port, port, false))]
    ensures Pkt(a, PortOf(s.hosts[a].u), b, port, Con) in s'.net
  {
    hide IdOf, PortOf, Reached;
    ReachStep(s, OpDial(a, b, port));
    s' := Step(s, OpDial(a, b, port));
  }

  /** `b` accepts an id it does not know. */
  lemma {:induction false} Accepts(s: System, b: Ip, p: Pkt) returns (s': System)
    requires Reached(s) && p in s.net && p.body.Con? && p.dst == b && b in s.hosts && s.hosts[b].ip == b
    requires s.hosts[b].serving && s.hosts[b].dialling == -1 && s.hosts[b].rings == []
    requires PktId(p) !in s.hosts[b].accepted && Called(s.hosts[b], p.src, p.sport).id !in s.hosts[b].conns
    ensures Reached(s') && s.net <= s'.net
    ensures s'.hosts == s.hosts[b := Accepting(s.hosts[b], PktId(p), Called(s.hosts[b], p.src, p.sport))]
    ensures Pkt(b, s.hosts[b].port, p.src, p.sport, ConAck(PortOf(s.hosts[b].s))) in s'.net
  {
    hide IdOf, PortOf, Reached, Swap, WithLocal, IpOf, RemoteOf;
    IncomingIs(s.hosts[b], p.src, p.sport, p.dport);
    ReachStep(s, OpReceive(p));
    s' := Step(s, OpReceive(p));
    assert Announce(s.hosts[b].rings, |s.hosts[b].objs|) == [];
  }

  /** The connection being dialled is acknowledged. */
  lemma {:induction false} Hears(s: System, p: Pkt) returns (s': System)
    requires Reached(s) && p in s.net && p.body.ConAck? && p.dst in s.hosts
    requires var h := s.hosts[p.dst];
             PktId(p) in h.conns && h.conns[PktId(p)] == h.dialling && 0 <= h.dialling < |h.objs|
    ensures Reached(s') && s'.net == s.net
    ensures var h := s.hosts[p.dst];
            var c := h.objs[h.dialling].(outPort := p.body.port, connected := true);
            s'.hosts == s.hosts[p.dst := h.(objs := h.objs[h.dialling := c])]
  {
    hide IdOf, Reached;
    ReachStep(s, OpReceive(p));
    s' := Step(s, OpReceive(p));
  }

  /** `connect` returns. */
  lemma {:induction false} Settles(s: System, a: Host, b: Ip, dialled: Port, out: Port) returns (s': System)
    requires Reached(s) && a.ip in s.hosts && a.rings == [] && a.dialling == -1
    requires s.hosts[a.ip] == WhileDialling(a, Calling(a, b, dialled, out, true))
    requires IdOf(b, out, PortOf(a.u)) !in a.conns && IdOf(b, dialled, PortOf(a.u)) !in a.conns
    ensures Reached(s') && s'.net == s.net
    ensures s'.hosts == s.hosts[a.ip := Connected(a, b, out)]
  {
    hide IdOf, PortOf, Reached, Swap, WithRemote;
    var h := s.hosts[a.ip];
    var c := h.objs[h.dialling];
    IdParts(b, dialled, PortOf(a.u), out);
    assert h.conns - {c.id} == a.conns;
    ReachStep(s, OpSettle(a.ip));
    s' := Step(s, OpSettle(a.ip));
    assert Announce(h.rings, h.dialling) == [];
    assert h.objs[h.dialling := c.(id := IdOf(b, out, PortOf(a.u)))] == Connected(a, b, out).objs;
  }

  /** `a` with one more client connection that is through. */
  function Connected(a: Host, b: Ip, out: Port): Host {
    var c := Conn(Client, IdOf(b, out, PortOf(a.u)), b, out, PortOf(a.u), true);
    a.(u := a.u + 1, objs := a.objs + [c], conns := a.conns[c.id := |a.objs|])
  }

  /** A whole handshake, when all ids it needs are free. */
  lemma {:induction false} Connects(s: System, a: Ip, b: Ip) returns (s': System)
    requires Reached(s) && Idle(s, a, b)
    requires var ha, hb := s.hosts[a], s.hosts[b];
             && IdOf(b, hb.port, PortOf(ha.u)) !in ha.conns && IdOf(b, PortOf(hb.s), PortOf(ha.u)) !in ha.conns
             && IdOf(a, PortOf(ha.u), hb.port) !in hb.accepted && IdOf(a, PortOf(ha.u), PortOf(hb.s)) !in hb.conns
    ensures Reached(s') && s.net <= s'.net && Idle(s', a, b)
    ensures var ha, hb := s.hosts[a], s.hosts[b];
            && s'.hosts == s.hosts[a := Connected(ha, b, PortOf(hb.s))]
                                  [b := Accepting(hb, IdOf(a, PortOf(ha.u), hb.port), Called(hb, a, PortOf(ha.u)))]
            && Pkt(a, PortOf(ha.u), b, hb.port, Con) in s'.net
  {
    hide IdOf, PortOf, Reached;
    var ha, hb := s.hosts[a], s.hosts[b];
    var s1 := Dials(s, a, b, hb.port);
    var con := Pkt(a, PortOf(ha.u), b, hb.port, Con);
    var s2 := Accepts(s1, b, con);
    var ack := Pkt(b, hb.port, a, PortOf(ha.u), ConAck(PortOf(hb.s)));
    var s3 := Hears(s2, ack);
    var c := Calling(ha, b, hb.port, PortOf(hb.s), true);
    assert s3.hosts[a].objs == ha.objs + [c];
    s' := Settles(s3, ha, b, hb.port, PortOf(hb.s));
  }

  /** A request that is delivered again only moves the counter. */
  lemma {:induction false} Repeats(s: System, p: Pkt, k: nat) returns (s': System)
    requires Reached(s) && p in s.net && p.body.Con? && p.dst in s.hosts && s.hosts[p.dst].serving
    requires s.hosts[p.dst].dialling == -1 && PktId(p) in s.hosts[p.dst].accepted
    ensures Reached(s') && s.net <= s'.net
    ensures s'.hosts == s.hosts[p.dst := s.hosts[p.dst].(s := s.hosts[p.dst].s + k)]
  {
    hide IdOf, PortOf, Reached;
    if k == 0 {
      s' := s;
    } else {
      var s1 := Repeats(s, p, k - 1);
      ReachStep(s1, OpReceive(p));
      s' := Step(s1, OpReceive(p));
    }
  }

  function Pair(pa: Port, pb: Port): System {
    System(map[1 := NewHost(1, true, pa, 0), 2 := NewHost(2, true, pb, 0)], {})
  }

  lemma {:induction false} PairReached(pa: Port, pb: Port)
    ensures Reached(Pair(pa, pb)) && Idle(Pair(pa, pb), 1, 2) && Idle(Pair(pa, pb), 2, 1)
  {
    var s := Pair(pa, pb);
    assert s.hosts[1] == NewHost(1, true, pa, 0) && s.hosts[2] == NewHost(2, true, pb, 0);
    assert EndsIn([s], [], s);
  }

  /** Ids with different ports differ. */
  lemma {:induction false} NewId(ip: Ip, a: Port, b: Port, ip': Ip, a': Port, b': Port)
    requires a != a' || b != b'
    ensures IdOf(ip, a, b) != IdOf(ip', a', b')
  {
    hide IdOf;
    if IdOf(ip, a, b) == IdOf(ip', a', b') {
      IdInjective(ip, a, b, ip', a', b');
    }
  }

  // ---------- accepting over a connection that is through ----------

  /** Delivering `p` files a new connection in the place of client connection `r`, which was through. */
  ghost predicate Overwrites(s: System, p: Pkt, r: nat) {
    && Enabled(s, OpReceive(p)) && p.body.Con? && Settled(s.hosts[p.dst], r)
    && var h, h' := s.hosts[p.dst], Step(s, OpReceive(p)).hosts[p.dst];
       && h.objs[r].role == Client && h.objs[r].id in h.conns && h.conns[h.objs[r].id] == r
       && h.objs[r].id in h'.conns && h'.conns[h.objs[r].id] == |h.objs|
       && |h'.objs| == |h.objs| + 1 && h'.objs[|h.objs|].role == Server
  }

  /** The hosts have dialled each other once and taken so many repeats that both counters stand at 9001. */
  lemma {:induction false} BothAt9001() returns (s: System)
    ensures Reached(s) && Idle(s, 1, 2) && Idle(s, 2, 1) && s.hosts.Keys == {1, 2}
    ensures forall ip | ip in s.hosts ::
              var h, peer := s.hosts[ip], 3 - ip;
              && h.s == 9001 && h.u == 9001 && h.port == 8000 && |h.objs| == 2
              && h.conns.Keys == {IdOf(peer, 8700, 9000), IdOf(peer, 9000, 8700)}
              && h.accepted.Keys == {IdOf(peer, 9000, 8000)}
  {
    hide IdOf, Reached;
    PairReached(8000, 8000);
    var s1 := Connects(Pair(8000, 8000), 1, 2);
    var s2 := Repeats(s1, Pkt(1, 9000, 2, 8000, Con), 300);
    NewId(1, 8000, 9000, 1, 9000, 8700);
    NewId(1, 8700, 9000, 1, 9000, 8700);
    NewId(2, 9000, 8700, 2, 8700, 9000);
    var s3 := Connects(s2, 2, 1);
    s := Repeats(s3, Pkt(2, 9000, 1, 8000, Con), 300);
  }

  lemma {:induction false} AcceptCanOverwrite()
    ensures exists s, p, r :: Reached(s) && Overwrites(s, p, r)
  {
    hide IdOf, Reached, Swap, WithLocal, IpOf, RemoteOf;
    var s := BothAt9001();
    NewId(2, 8000, 9001, 2, 8700, 9000);
    NewId(2, 8000, 9001, 2, 9000, 8700);
    NewId(2, 9001, 9001, 2, 8700, 9000);
    NewId(2, 9001, 9001, 2, 9000, 8700);
    NewId(1, 9001, 8000, 1, 9000, 8000);
    NewId(1, 9001, 9001, 1, 9000, 8700);
    NewId(1, 9001, 9001, 1, 8700, 9000);
    var s1 := Connects(s, 1, 2);
    NewId(1, 8000, 9001, 1, 8700, 9000);
    NewId(1, 8000, 9001, 1, 9000, 8700);
    NewId(1, 8000, 9001, 1, 9001, 9001);
    var s2 := Dials(s1, 2, 1, 8000);
    var p := Pkt(2, 9001, 1, 8000, Con);
    NewId(2, 9001, 8000, 2, 9000, 8000);
    IncomingIs(s2.hosts[1], 2, 9001, 8000);
    assert Overwrites(s2, p, 2);
  }

  // ---------- a late acknowledgement ----------

  /** Delivering `p` sends client connection `r`, which was through, to another port than its id says. */
  ghost predicate Diverts(s: System, p: Pkt, r: nat) {
    && Enabled(s, OpReceive(p)) && p.body.ConAck? && Settled(s.hosts[p.dst], r)
    && var c, c' := s.hosts[p.dst].objs[r], Step(s, OpReceive(p)).hosts[p.dst].objs[r];
       && c.role == Client && c.connected && c.id == IdOf(c.peer, c.outPort, c.udpPort)
       && c' == c.(outPort := p.body.port) && p.body.port != c.outPort
  }

  /**
   A server configured at 8701 assigns 8700. The client hears of it and has just sent its request again, now to
   8700: a new id, for which the server assigns 8701. The client hears of that and is through; then the first
   acknowledgement arrives once more.
   */
  lemma {:induction false} LateAckCanDivert()
    ensures exists s, p, r :: Reached(s) && Diverts(s, p, r)
  {
    hide IdOf, Reached;
    PairReached(8000, 8701);
    var s0 := Pair(8000, 8701);
    var s1 := Dials(s0, 1, 2, 8701);
    var s2 := Accepts(s1, 2, Pkt(1, 9000, 2, 8701, Con));
    var first := Pkt(2, 8701, 1, 9000, ConAck(8700));
    var s3 := Hears(s2, first);
    var con := Pkt(1, 9000, 2, 8700, Con);
    ReachStep(s3, OpRedial(1));
    var s4 := Step(s3, OpRedial(1));
    NewId(1, 9000, 8700, 1, 9000, 8701);
    var s5 := Accepts(s4, 2, con);
    var s6 := Hears(s5, Pkt(2, 8701, 1, 9000, ConAck(8701)));
    assert s6.hosts[1] == WhileDialling(s0.hosts[1], Calling(s0.hosts[1], 2, 8701, 8701, true));
    var s7 := Settles(s6, s0.hosts[1], 2, 8701, 8701);
    assert Diverts(s7, first, 0);
  }

  // ---------- a counter that has run through 16 bits ----------

  ghost predicate TwoOnOnePort(h: Host, q: nat, r: nat) {
    q < r < |h.objs| && h.objs[q].role == Server && h.objs[r].role == Server && h.objs[q].udpPort == h.objs[r].udpPort
  }

  /** One request repeated 65535 times: the next connection is given the port of the first. */
  lemma {:induction false} PortsRepeat()
    ensures exists s, ip, q, r :: Reached(s) && ip in s.hosts && TwoOnOnePort(s.hosts[ip], q, r)
  {
    hide IdOf, Reached;
    PairReached(8000, 8000);
    var s1 := Connects(Pair(8000, 8000), 1, 2);
    var s2 := Repeats(s1, Pkt(1, 9000, 2, 8000, Con), 65535);
    assert PortOf(s2.hosts[2].s) == 8700;
    NewId(2, 8000, 9001, 2, 8700, 9000);
    NewId(2, 8700, 9001, 2, 8700, 9000);
    NewId(1, 9001, 8000, 1, 9000, 8000);
    NewId(1, 9001, 8700, 1, 9000, 8700);
    var s3 := Connects(s2, 1, 2);
    assert TwoOnOnePort(s3.hosts[2], 0, 1);
  }
}

/** The transport of one process as implemented. */
module DpdkTransport {
  import opened ConnId
  import opened HandshakeModel

  /** `swap_udp_addresses` on a packet buffer. */
  class Packet {
    var src: Ip
    var sport: Port
    var dst: Ip
    var dport: Port
    const body: Body

    function View(): Pkt
      reads this
    {
      Pkt(src, sport, dst, dport, body)
    }

    constructor (p: Pkt)
      ensures View() == p
    {
      src, sport, dst, dport, body := p.src, p.sport, p.dst, p.dport, p.body;
    }

    method SwapUdpAddresses()
      modifies this
      ensures View() == SwapAddresses(old(View()))
    {
      dst, src := src, dst;
      sport, dport := dport, sport;
    }
  }

  class Transport {
    const ip: Ip
    const serving: bool
    const port: Port
    var u: nat
    var s: nat
    var accepted: map<Id, Id>
    var objs: seq<Conn>
    var conns: map<Id, nat>
    var dialling: int
    var rings: seq<seq<nat>>
    var threads: seq<map<Id, nat>>
    var sent: seq<Pkt>

    function View(): Host
      reads this
    {
      Host(ip, serving, port, u, s, accepted, objs, conns, dialling, rings, threads)
    }

    constructor (ip: Ip, serving: bool, port: Port, nThreads: nat)
      ensures View() == NewHost(ip, serving, port, nThreads) && sent == []
    {
      this.ip, this.serving, this.port := ip, serving, port;
      u, s := U_START, S_START;
      accepted, objs, conns, dialling := map[], [], map[], -1;
      rings := seq(nThreads, _ => []);
      threads := seq(nThreads, _ => map[]);
      sent := [];
    }

    method SendAck(c: Conn)
      modifies `sent
      ensures sent == old(sent) + [AckOf(View(), c)]
    {
      sent := sent + [Pkt(ip, port, c.peer, c.outPort, ConAck(c.udpPort))];
    }

    /** Hands connection `r` to every thread. */
    method TellThreads(r: nat)
      modifies `rings
      ensures rings == Announce(old(rings), r)
    {
      var i := 0;
      while i < |rings|
        invariant 0 <= i <= |rings| == |old(rings)|
        invariant forall t | 0 <= t < i :: rings[t] == old(rings)[t] + [r]
        invariant forall t | i <= t < |rings| :: rings[t] == old(rings)[t]
      {
        rings := rings[i := rings[i] + [r]];
        i := i + 1;
      }
    }

    /** `accept`. That the remembered connection is still in the table is what the handshake invariant provides. */
    method AcceptConn(id: Id)
      requires id in accepted ==> accepted[id] in conns && 0 <= conns[accepted[id]] < |objs|
      modifies this
      ensures View() == Accept(old(View()), id).0
      ensures old(sent) <= sent && |sent| <= |old(sent)| + 1
      ensures forall p :: p in Accept(old(View()), id).1 <==> p in sent[|old(sent)|..]
    {
      if !serving {
        return;
      }
      ghost var h := View();
      var peer := IpOf(id);
      var remote := RemoteOf(id);
      var udp := PortOf(s);
      s := s + 1;
      var c := Conn(Server, WithLocal(id, Swap(udp)), peer, Swap(remote), udp, false);
      if id in accepted {
        SendAck(objs[conns[accepted[id]]]);
        return;
      }
      var r := |objs|;
      objs := objs + [c];
      conns := conns[c.id := r];
      SendAck(c);
      TellThreads(r);
      accepted := accepted[id := c.id];
    }

    /** `connect` up to and including the first request. */
    method StartDialling(server: Ip, dialled: Port)
      requires dialling == -1
      modifies this
      ensures View() == Dial(old(View()), server, dialled).0
      ensures sent == old(sent) + [PktOf(View(), objs[|objs|-1], Con)]
    {
      var udp := PortOf(u);
      u := u + 1;
      var id := Swap(udp) + K16 * (Swap(dialled) + K16 * server);
      assert id == IdOf(server, dialled, udp);
      objs := objs + [Conn(Client, id, server, dialled, udp, false)];
      conns := conns[id := |objs| - 1];
      dialling := |objs| - 1;
      Redial();
    }

    method Redial()
      requires 0 <= dialling < |objs|
      modifies `sent
      ensures sent == old(sent) + [PktOf(View(), objs[dialling], Con)]
    {
      var c := objs[dialling];
      sent := sent + [Pkt(ip, c.udpPort, c.peer, c.outPort, Con)];
    }

    /** The end of `connect`. */
    method FinishDialling()
      requires 0 <= dialling < |objs| && objs[dialling].connected
      modifies this
      ensures View() == HandshakeModel.Settle(old(View())) && sent == old(sent)
    {
      var r := dialling;
      var c := objs[r];
      var id := WithRemote(c.id, Swap(c.outPort));
      conns := conns - {c.id};
      if id !in conns {
        conns := conns[id := r];
      }
      objs := objs[r := c.(id := id)];
      TellThreads(r);
      dialling := -1;
    }

    method OnConAck(id: Id, theirs: Port)
      requires forall k | k in conns :: conns[k] < |objs|
      modifies `objs
      ensures View() == OnAck(old(View()), id, theirs)
    {
      if id in conns {
        var r := conns[id];
        objs := objs[r := objs[r].(outPort := theirs, connected := true)];
      }
    }

    /** `process_requests`: one burst of received packets; foreground requests are answered in place. */
    method ProcessRequests(t: nat, rx: seq<Pkt>) returns (tx: seq<Pkt>, dropped: nat)
      requires t < |threads| && Sound(View())
      modifies this
      ensures Sound(View()) && threads == old(threads)
      ensures View() == Dispatched(old(View()), rx)
      ensures tx == Replies(threads[t], rx) && |tx| + dropped == CountData(rx)
      ensures |tx| == Hits(threads[t], rx)
      ensures forall i | 0 <= i < |rx| && rx[i].body.Data? && PktId(rx[i]) in threads[t] ::
                Hits(threads[t], rx[..i]) < |tx| &&
                tx[Hits(threads[t], rx[..i])] == Pkt(rx[i].dst, rx[i].dport, rx[i].src, rx[i].sport, rx[i].body)
    {
      tx, dropped := [], 0;
      var i := 0;
      ghost var h := View();
      while i < |rx|
        invariant 0 <= i <= |rx| && Sound(View()) && threads == h.threads
        invariant View() == Dispatched(h, rx[..i])
        invariant tx == Replies(threads[t], rx[..i]) && |tx| + dropped == CountData(rx[..i])
      {
        var p := rx[i];
        assert rx[..i+1][..i] == rx[..i];
        DispatchSound(View(), p);
        match p.body {
          case Con => AcceptConn(PktId(p));
          case ConAck(assignedPort) => OnConAck(PktId(p), assignedPort);
          case Data =>
            if PktId(p) in threads[t] {
              var pkt := new Packet(p);
              pkt.SwapUdpAddresses();
              tx := tx + [pkt.View()];
            } else {
              dropped := dropped + 1;
            }
        }
        i := i + 1;
      }
      assert rx[..|rx|] == rx;
      EachAnswered(threads[t], rx);
    }

    /** `process_sm_req`: a thread empties up to `burst` entries of its ring into its table. */
    method ProcessSmReq(t: nat, burst: nat)
      requires t < |rings| == |threads| && forall i | 0 <= i < |rings[t]| :: rings[t][i] < |objs|
      modifies `rings, `threads
      ensures var n := if burst < |old(rings)[t]| then burst else |old(rings)[t]|;
              View() == Installed(old(View()), t, n) && Takes(old(View()), View(), t, n)
    {
      hide Takes;
      var i := 0;
      var n := if burst < |rings[t]| then burst else |rings[t]|;
      ghost var h := View();
      while i < n
        invariant 0 <= i <= n <= |h.rings[t]|
        invariant View() == Installed(h, t, i)
        invariant |rings| == |threads| == |h.rings| && rings[t] == h.rings[t][i..]
      {
        var r := rings[t][0];
        assert r == h.rings[t][i];
        var table: map<Id, nat> := threads[t][objs[r].id := r];
        threads := threads[t := table];
        rings := rings[t := rings[t][1..]];
        i := i + 1;
      }
      InstalledTakes(h, t, n);
    }
  }

  /** The tables refer to existing objects. */
  ghost predicate Sound(h: Host) {
    && (forall k | k in h.conns :: 0 <= h.conns[k] < |h.objs|)
    && (forall k | k in h.accepted :: h.accepted[k] in h.conns)
  }

  ghost function Dispatch(h: Host, p: Pkt): Host {
    match p.body
    case Con => Accept(h, PktId(p)).0
    case ConAck(q) => OnAck(h, PktId(p), q)
    case Data => h
  }

  ghost function Dispatched(h: Host, rx: seq<Pkt>): Host {
    if rx == [] then h else Dispatch(Dispatched(h, rx[..|rx|-1]), rx[|rx|-1])
  }

  ghost function Replies(table: map<Id, nat>, rx: seq<Pkt>): seq<Pkt> {
    if rx == [] then []
    else
      var p := rx[|rx|-1];
      Replies(table, rx[..|rx|-1]) + if p.body.Data? && PktId(p) in table then [SwapAddresses(p)] else []
  }

  /** How many of the packets are data for a connection in the table. */
  ghost function Hits(table: map<Id, nat>, rx: seq<Pkt>): nat {
    if rx == [] then 0
    else (if rx[0].body.Data? && PktId(rx[0]) in table then 1 else 0) + Hits(table, rx[1..])
  }

  lemma {:induction false} HitsSnoc(table: map<Id, nat>, rx: seq<Pkt>, p: Pkt)
    ensures Hits(table, rx + [p]) == Hits(table, rx) + if p.body.Data? && PktId(p) in table then 1 else 0
  {
    if rx == [] {
      assert [p][1..] == [];
    } else {
      HitsSnoc(table, rx[1..], p);
      assert (rx + [p])[1..] == rx[1..] + [p];
    }
  }

  /** Packets found are answered one for one, in order, with addresses exchanged. */
  lemma {:induction false} EachAnswered(table: map<Id, nat>, rx: seq<Pkt>)
    ensures |Replies(table, rx)| == Hits(table, rx)
    ensures forall i | 0 <= i < |rx| && rx[i].body.Data? && PktId(rx[i]) in table ::
              && Hits(table, rx[..i]) < |Replies(table, rx)|
              && Replies(table, rx)[Hits(table, rx[..i])] ==
                 Pkt(rx[i].dst, rx[i].dport, rx[i].src, rx[i].sport, rx[i].body)
  {
    hide PktId;
    if rx != [] {
      var n := |rx| - 1;
      EachAnswered(table, rx[..n]);
      assert rx == rx[..n] + [rx[n]];
      HitsSnoc(table, rx[..n], rx[n]);
      forall i | 0 <= i < n ensures rx[..n][..i] == rx[..i] {
      }
    }
  }

  ghost function CountData(rx: seq<Pkt>): nat {
    if rx == [] then 0 else CountData(rx[..|rx|-1]) + if rx[|rx|-1].body.Data? then 1 else 0
  }

  lemma {:induction false} DispatchSound(h: Host, p: Pkt)
    requires Sound(h)
    ensures Sound(Dispatch(h, p)) && Dispatch(h, p).threads == h.threads
  {
    hide IdOf, Swap, WithLocal, IpOf, RemoteOf;
  }

  /**
   From `h` to `h'` thread `t` has taken the first `n` connections off its ring: each is in its table under
   its id, the last one of an id winning; all other ids, rings and tables are as before.
   */
  ghost predicate Takes(h: Host, h': Host, t: nat, n: nat)
    requires t < |h.rings| == |h.threads| && n <= |h.rings[t]|
    requires forall i | 0 <= i < |h.rings[t]| :: h.rings[t][i] < |h.objs|
  {
    && |h'.rings| == |h'.threads| == |h.rings| && h'.objs == h.objs && h'.rings[t] == h.rings[t][n..]
    && (forall k | 0 <= k < |h.rings| && k != t :: h'.rings[k] == h.rings[k] && h'.threads[k] == h.threads[k])
    && (forall i | 0 <= i < n && LastOfId(h, h.rings[t][..n], i) ::
          var id := h.objs[h.rings[t][i]].id; id in h'.threads[t] && h'.threads[t][id] == h.rings[t][i])
    && (forall id: Id | forall i | 0 <= i < n :: h.objs[h.rings[t][i]].id != id ::
          && (id in h'.threads[t] <==> id in h.threads[t])
          && (id in h.threads[t] ==> h'.threads[t][id] == h.threads[t][id]))
  }

  ghost predicate LastOfId(h: Host, ring: seq<nat>, i: nat)
    requires i < |ring| && forall j | 0 <= j < |ring| :: ring[j] < |h.objs|
  {
    forall j | i < j < |ring| :: h.objs[ring[j]].id != h.objs[ring[i]].id
  }

  /** `n` connections taken from the ring of thread `t` one after the other. */
  ghost function Installed(h: Host, t: nat, n: nat): (h': Host)
    requires t < |h.rings| == |h.threads| && n <= |h.rings[t]|
    requires forall i | 0 <= i < |h.rings[t]| :: h.rings[t][i] < |h.objs|
    ensures |h'.rings| == |h'.threads| == |h.rings| && h'.objs == h.objs && h'.rings[t] == h.rings[t][n..]
  {
    if n == 0 then h
    else
      var g := Installed(h, t, n - 1);
      assert g.rings[t][0] == h.rings[t][n-1];
      Install(g, t)
  }

  lemma {:induction false} InstalledTakes(h: Host, t: nat, n: nat)
    requires t < |h.rings| == |h.threads| && n <= |h.rings[t]|
    requires forall i | 0 <= i < |h.rings[t]| :: h.rings[t][i] < |h.objs|
    ensures Takes(h, Installed(h, t, n), t, n)
  {
    if n > 0 {
      InstalledTakes(h, t, n - 1);
      TakesOne(h, Installed(h, t, n - 1), t, n);
    }
  }

  lemma {:induction false} TakesOne(h: Host, g: Host, t: nat, n: nat)
    requires t < |h.rings| == |h.threads| && 0 < n <= |h.rings[t]|
    requires forall i | 0 <= i < |h.rings[t]| :: h.rings[t][i] < |h.objs|
    requires Takes(h, g, t, n - 1)
    ensures g.rings[t] != [] && g.rings[t][0] == h.rings[t][n-1] && Takes(h, Install(g, t), t, n)
  {
    var ring, h' := h.rings[t], Install(g, t);
    var last := h.objs[ring[n-1]].id;
    assert h'.threads[t] == g.threads[t][last := ring[n-1]];
    forall i | 0 <= i < n && LastOfId(h, ring[..n], i)
      ensures var id := h.objs[ring[i]].id; id in h'.threads[t] && h'.threads[t][id] == ring[i]
    {
      if i < n - 1 {
        assert ring[..n][n-1] == ring[n-1];
        assert LastOfId(h, ring[..n-1], i);
      }
    }
    forall id: Id | forall i | 0 <= i < n :: h.objs[ring[i]].id != id
      ensures (id in h'.threads[t] <==> id in h.threads[t]) &&
              (id in h.threads[t] ==> h'.threads[t][id] == h.threads[t][id])
    {
      assert id != last;
    }
  }
}
