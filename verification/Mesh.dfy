/** Start-up of the whole cluster (src/server/network.rs): every node listens, dials the nodes with smaller
    ids, and its main loop collects, from one bounded channel, the connections to peers and to clients. Once a
    connection is made, its handshake is assumed to go through. */
module Mesh {
  import opened KV
  import opened Networks

  /** One connection. `dial` counts what the dialling side has done: 0 connected, 1 handshake sent, 2 queued
      for its own main loop, 3 in its slot. `acc` counts the listening side: 0 in the backlog, 1 accepted,
      2 handshake read and queued for the main loop, 3 in its slot. */
  datatype Link = Link(dialer: NodeId, listener: NodeId, dial: nat, acc: nat)

  /** What the main loop of a node receives: its end of a link, or a client. */
  datatype Arrival = FromPeer(l: nat) | FromClient(id: ClientId)

  /** `dialing` are the dial tasks that have not connected yet; `done` the nodes whose main loop has ended, whose
      listener and channel are gone; `slots[n][p]` is the link node n uses for its peer p. The clients of a node
      are first `accepted`, then get an id and are `waiting` to be queued in the `channel`, then connected
      (`clients`) or, once the main loop has ended, `lost`. */
  datatype State = State(
    dialing: set<(NodeId, NodeId)>,
    bound: set<NodeId>,
    links: seq<Link>,
    slots: map<NodeId, map<NodeId, nat>>,
    channel: map<NodeId, seq<Arrival>>,
    accepted: map<NodeId, nat>,
    maxClientId: map<NodeId, nat>,
    waiting: map<NodeId, set<ClientId>>,
    clients: map<NodeId, set<ClientId>>,
    lost: map<NodeId, set<ClientId>>,
    done: set<NodeId>)

  datatype Step =
    | Bind(n: NodeId)
    | Connect(hi: NodeId, lo: NodeId)
    | SendHandshake(l: nat)
    | QueueOwn(l: nat)
    | Accept(l: nat)
    | ReadHandshake(l: nat)
    | ClientConnects(n: NodeId)
    | ClientRegisters(n: NodeId)
    | ClientQueues(n: NodeId, id: ClientId)
    | ClientLost(n: NodeId, id: ClientId)
    | Take(n: NodeId)

  /** The room in a node's channel of new connections. */
  const CHANNEL_SIZE: nat := 30

  /** The dial tasks that `spawn_peer_connectors` starts on the nodes of the cluster: the higher id dials. */
  function DialTasks(nodes: set<NodeId>): set<(NodeId, NodeId)> {
    set hi, lo | hi in nodes && lo in nodes && lo < hi :: (hi, lo)
  }

  predicate Init(cfg: map<NodeId, nat>, st: State) {
    st == State(DialTasks(cfg.Keys), {}, [], map n | n in cfg :: map[], map n | n in cfg :: [],
                map n | n in cfg :: 0, map n | n in cfg :: 0, map n | n in cfg :: {}, map n | n in cfg :: {},
                map n | n in cfg :: {}, {})
  }

  predicate Listening(st: State, n: NodeId) {
    n in st.bound && n !in st.done
  }

  predicate Shape(cfg: map<NodeId, nat>, st: State) {
    && st.slots.Keys == st.channel.Keys == cfg.Keys
    && st.accepted.Keys == st.maxClientId.Keys == cfg.Keys
    && st.waiting.Keys == st.clients.Keys == st.lost.Keys == cfg.Keys
    && (forall l :: 0 <= l < |st.links| ==> st.links[l].dialer in cfg && st.links[l].listener in cfg)
  }

  /** Node `n` has every peer in a slot, and at least `need` clients. */
  predicate Complete(nodes: set<NodeId>, n: NodeId, slots: map<NodeId, nat>, clients: set<ClientId>, need: nat) {
    |clients| >= need && forall p :: p in nodes && p != n ==> p in slots
  }

  predicate HasRoom(st: State, n: NodeId) {
    n in st.channel && n !in st.done && |st.channel[n]| < CHANNEL_SIZE
  }

  predicate CanTake(st: State, n: NodeId) {
    && n in st.channel && n !in st.done && st.channel[n] != []
    && (st.channel[n][0].FromPeer? ==> st.channel[n][0].l < |st.links|)
  }

  predicate Enabled(cfg: map<NodeId, nat>, st: State, step: Step) {
    && Shape(cfg, st)
    && match step
       case Bind(n) => n in cfg && n !in st.bound
       case Connect(hi, lo) => (hi, lo) in st.dialing && hi in cfg && lo in cfg && Listening(st, lo)
       case SendHandshake(l) => l < |st.links| && st.links[l].dial == 0
       case QueueOwn(l) => l < |st.links| && st.links[l].dial == 1 && HasRoom(st, st.links[l].dialer)
       case Accept(l) => l < |st.links| && st.links[l].acc == 0 && Listening(st, st.links[l].listener)
       case ReadHandshake(l) =>
         l < |st.links| && st.links[l].acc == 1 && st.links[l].dial >= 1 && HasRoom(st, st.links[l].listener)
       case ClientConnects(n) => n in cfg && Listening(st, n)
       case ClientRegisters(n) => n in cfg && st.accepted[n] > 0
       case ClientQueues(n, id) => n in cfg && id in st.waiting[n] && HasRoom(st, n)
       case ClientLost(n, id) => n in cfg && id in st.waiting[n] && n in st.done
       case Take(n) => CanTake(st, n)
  }

  function Ids(channel: seq<Arrival>): set<ClientId> {
    set a | a in channel && a.FromClient? :: a.id
  }

  /** The main loop looks at its exit condition right after each arrival. When it ends, what is still in its
      channel is dropped. */
  function AfterArrival(cfg: map<NodeId, nat>, st: State, n: NodeId): State
    requires Shape(cfg, st) && n in cfg
  {
    if Complete(cfg.Keys, n, st.slots[n], st.clients[n], cfg[n])
    then st.(done := st.done + {n}, channel := st.channel[n := []],
             lost := st.lost[n := st.lost[n] + Ids(st.channel[n])])
    else st
  }

  /** The link after its end at node `n` has got to phase `phase`. */
  function SideMoved(k: Link, n: NodeId, phase: nat): Link {
    if k.dialer == n then k.(dial := phase) else k.(acc := phase)
  }

  function OtherEnd(k: Link, n: NodeId): NodeId {
    if k.dialer == n then k.listener else k.dialer
  }

  /** The first arrival in the channel of `n` becomes a filled slot or a connected client. */
  function Taken(st: State, n: NodeId): State
    requires CanTake(st, n) && n in st.slots && n in st.clients
  {
    var st1 := st.(channel := st.channel[n := st.channel[n][1..]]);
    match st.channel[n][0]
    case FromPeer(l) =>
      var row: map<NodeId, nat> := st.slots[n] + map[OtherEnd(st.links[l], n) := l];
      st1.(links := st.links[l := SideMoved(st.links[l], n, 3)], slots := st.slots[n := row])
    case FromClient(id) =>
      st1.(clients := st.clients[n := st.clients[n] + {id}])
  }

  function Do(cfg: map<NodeId, nat>, st: State, step: Step): State
    requires Enabled(cfg, st, step)
  {
    match step
    case Bind(n) => st.(bound := st.bound + {n})
    case Connect(hi, lo) => st.(dialing := st.dialing - {(hi, lo)}, links := st.links + [Link(hi, lo, 0, 0)])
    case SendHandshake(l) => st.(links := st.links[l := st.links[l].(dial := 1)])
    case QueueOwn(l) =>
      var n := st.links[l].dialer;
      st.(links := st.links[l := st.links[l].(dial := 2)], channel := st.channel[n := st.channel[n] + [FromPeer(l)]])
    case Accept(l) => st.(links := st.links[l := st.links[l].(acc := 1)])
    case ReadHandshake(l) =>
      var n := st.links[l].listener;
      st.(links := st.links[l := st.links[l].(acc := 2)], channel := st.channel[n := st.channel[n] + [FromPeer(l)]])
    case ClientConnects(n) => st.(accepted := st.accepted[n := st.accepted[n] + 1])
    case ClientRegisters(n) =>
      var id := st.maxClientId[n] + 1;
      st.(accepted := st.accepted[n := st.accepted[n] - 1], maxClientId := st.maxClientId[n := id],
          waiting := st.waiting[n := st.waiting[n] + {id}])
    case ClientQueues(n, id) =>
      st.(waiting := st.waiting[n := st.waiting[n] - {id}],
          channel := st.channel[n := st.channel[n] + [FromClient(id)]])
    case ClientLost(n, id) =>
      st.(waiting := st.waiting[n := st.waiting[n] - {id}], lost := st.lost[n := st.lost[n] + {id}])
    case Take(n) => AfterArrival(cfg, Taken(st, n), n)
  }

  // ---------------------------------------------------------------- the invariant

  predicate IsPair(nodes: set<NodeId>, hi: NodeId, lo: NodeId) {
    hi in nodes && lo in nodes && lo < hi
  }

  ghost predicate HasLink(links: seq<Link>, hi: NodeId, lo: NodeId) {
    exists l :: 0 <= l < |links| && links[l].dialer == hi && links[l].listener == lo
  }

  /** Every pair of nodes is still being dialled or has exactly one link, dialled by the higher id. */
  ghost predicate LinksOk(nodes: set<NodeId>, dialing: set<(NodeId, NodeId)>, bound: set<NodeId>, links: seq<Link>) {
    && (forall hi: NodeId, lo: NodeId :: (hi, lo) in dialing ==> IsPair(nodes, hi, lo))
    && (forall l :: 0 <= l < |links| ==> LinkOk(nodes, dialing, bound, links[l]))
    && (forall l, m :: 0 <= l < m < |links| ==>
          links[l].dialer != links[m].dialer || links[l].listener != links[m].listener)
    && (forall hi: NodeId, lo: NodeId :: IsPair(nodes, hi, lo) && (hi, lo) !in dialing ==> HasLink(links, hi, lo))
  }

  predicate LinkOk(nodes: set<NodeId>, dialing: set<(NodeId, NodeId)>, bound: set<NodeId>, k: Link) {
    && IsPair(nodes, k.dialer, k.listener) && (k.dialer, k.listener) !in dialing
    && k.listener in bound && k.dial <= 3 && k.acc <= 3 && (k.acc >= 2 ==> k.dial >= 1)
  }

  /** A slot is filled exactly by the link whose side of the connection got that far. */
  ghost predicate SlotsOk(nodes: set<NodeId>, dialing: set<(NodeId, NodeId)>, links: seq<Link>,
                          slots: map<NodeId, map<NodeId, nat>>) {
    && slots.Keys == nodes
    && (forall l :: 0 <= l < |links| ==> links[l].dialer in nodes && links[l].listener in nodes)
    && (forall l :: 0 <= l < |links| ==>
          && SideOk(links[l].dial, l, slots[links[l].dialer], links[l].listener)
          && SideOk(links[l].acc, l, slots[links[l].listener], links[l].dialer))
    && (forall n: NodeId, p: NodeId :: n in nodes && p in slots[n] ==> (p, n) !in dialing && (n, p) !in dialing)
  }

  predicate SideOk(phase: nat, l: nat, slots: map<NodeId, nat>, peer: NodeId) {
    (phase == 3 <==> peer in slots) && (phase == 3 ==> slots[peer] == l)
  }

  /** The end of link `l` at node `n` is on its way to the main loop. */
  predicate IsQueued(links: seq<Link>, n: NodeId, l: nat) {
    l < |links| && ((links[l].dialer == n && links[l].dial == 2) || (links[l].listener == n && links[l].acc == 2))
  }

  /** A node's channel is not overfull and holds, once each, exactly the ends of links on their way. */
  ghost predicate QueueOk(n: NodeId, links: seq<Link>, q: seq<Arrival>) {
    && |q| <= CHANNEL_SIZE
    && (forall i, j :: 0 <= i < j < |q| ==> q[i] != q[j])
    && (forall l: nat :: FromPeer(l) in q <==> IsQueued(links, n, l))
  }

  /** A node's registered clients are numbered 1, 2, ... without gaps, and each is in one place. */
  predicate ClientsOk(max: nat, waiting: set<ClientId>, queued: set<ClientId>, clients: set<ClientId>,
                      lost: set<ClientId>) {
    && waiting !! queued && (waiting + queued) !! clients && (waiting + queued + clients) !! lost
    && waiting + queued + clients + lost == UpTo(max)
  }

  ghost predicate DoneOk(cfg: map<NodeId, nat>, done: set<NodeId>, slots: map<NodeId, map<NodeId, nat>>,
                         clients: map<NodeId, set<ClientId>>, channel: map<NodeId, seq<Arrival>>) {
    && slots.Keys == clients.Keys == channel.Keys == cfg.Keys && done <= cfg.Keys
    && forall n :: n in done ==> Complete(cfg.Keys, n, slots[n], clients[n], cfg[n]) && channel[n] == []
  }

  ghost predicate QueuesOk(links: seq<Link>, channel: map<NodeId, seq<Arrival>>) {
    forall n :: n in channel ==> QueueOk(n, links, channel[n])
  }

  predicate AllClientsOk(max: map<NodeId, nat>, waiting: map<NodeId, set<ClientId>>, channel: map<NodeId, seq<Arrival>>,
                         clients: map<NodeId, set<ClientId>>, lost: map<NodeId, set<ClientId>>) {
    && max.Keys == waiting.Keys == channel.Keys == clients.Keys == lost.Keys
    && forall n :: n in max ==> ClientsOk(max[n], waiting[n], Ids(channel[n]), clients[n], lost[n])
  }

  ghost predicate Inv(cfg: map<NodeId, nat>, st: State) {
    && Shape(cfg, st)
    && LinksOk(cfg.Keys, st.dialing, st.bound, st.links)
    && SlotsOk(cfg.Keys, st.dialing, st.links, st.slots)
    && QueuesOk(st.links, st.channel)
    && AllClientsOk(st.maxClientId, st.waiting, st.channel, st.clients, st.lost)
    && DoneOk(cfg, st.done, st.slots, st.clients, st.channel)
  }

  lemma InitInv(cfg: map<NodeId, nat>, st: State)
    requires Init(cfg, st)
    ensures Inv(cfg, st)
  {
  }
}
