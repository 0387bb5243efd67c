/** A server's connections (src/server/network.rs): filling them at start-up, sending to a client,
    and the loop that drains one client's channel into its socket. */
module Networks {
  import opened KV
  import opened Replicas
  import opened Sets

  /** `learned` stands for what an Omnipaxos message teaches its receiver: newly decided entries. */
  datatype ClusterMessage = OmniPaxosMessage(learned: seq<Command>) | LeaderStartSignal(time: Timestamp)

  /** The sending half of an unbounded channel: what it accepted, and whether its receiver still exists. */
  datatype Channel<M> = Channel(sent: seq<M>, open: bool)

  datatype NewConnection = ToPeer(peerId: NodeId) | ToClient(clientId: ClientId)

  /** The client ids, and the peer ids, among the connections that arrived. */
  function ClientsOf(arrivals: seq<NewConnection>): set<ClientId> {
    if |arrivals| == 0 then {}
    else
      var last := arrivals[|arrivals| - 1];
      ClientsOf(arrivals[..|arrivals| - 1]) + (if last.ToClient? then {last.clientId} else {})
  }

  function PeersOf(arrivals: seq<NewConnection>): set<NodeId> {
    if |arrivals| == 0 then {}
    else
      var last := arrivals[|arrivals| - 1];
      PeersOf(arrivals[..|arrivals| - 1]) + (if last.ToPeer? then {last.peerId} else {})
  }

  /** The condition under which start-up stops accepting connections. */
  predicate Ready(peers: seq<NodeId>, numClients: nat, arrivals: seq<NewConnection>) {
    |ClientsOf(arrivals)| >= numClients && forall p :: p in peers ==> p in PeersOf(arrivals)
  }

  /** Start-up ends after the `used`-th arrival: the condition holds then, and not one arrival earlier,
      unless that was before the first. */
  predicate ExitsAfter(peers: seq<NodeId>, numClients: nat, arrivals: seq<NewConnection>, used: nat) {
    && 0 < used <= |arrivals| && Ready(peers, numClients, arrivals[..used])
    && (used == 1 || !Ready(peers, numClients, arrivals[..used - 1]))
  }

  function IdToIdx(peers: seq<NodeId>, id: NodeId): (r: Option<nat>)
    ensures r.Some? ==> r.value < |peers| && peers[r.value] == id
    ensures r.None? <==> id !in peers
  {
    if |peers| == 0 then None
    else if peers[0] == id then Some(0)
    else
      var rest := IdToIdx(peers[1..], id);
      if rest.Some? then Some(rest.value + 1) else None
  }

  /** A connected client's channel accepted all that was handed to it, a forgotten one's a prefix. */
  ghost predicate ChannelsOk(connections: map<ClientId, Channel<ServerMessage>>,
                             accepted: map<ClientId, seq<ServerMessage>>, handed: seq<Handed>) {
    && (forall c :: c in connections ==>
          c in accepted && accepted[c] == connections[c].sent && connections[c].sent == StreamTo(handed, c))
    && (forall c :: c in accepted ==> accepted[c] <= StreamTo(handed, c))
  }

  lemma HandingOver(handed: seq<Handed>, to: ClientId, msg: ServerMessage, c: ClientId)
    ensures StreamTo(handed + [Handed(to, msg)], c) == StreamTo(handed, c) + (if c == to then [msg] else [])
  {
    assert (handed + [Handed(to, msg)])[..|handed|] == handed;
  }

  lemma AcceptedOk(connections: map<ClientId, Channel<ServerMessage>>, accepted: map<ClientId, seq<ServerMessage>>,
                   handed: seq<Handed>, to: ClientId, msg: ServerMessage)
    requires ChannelsOk(connections, accepted, handed) && to in connections
    ensures var sent := connections[to].sent + [msg];
      ChannelsOk(connections[to := Channel(sent, true)], accepted[to := sent], handed + [Handed(to, msg)])
  {
    hide StreamTo;
    forall c: ClientId { HandingOver(handed, to, msg, c); }
  }

  lemma NotAcceptedOk(connections: map<ClientId, Channel<ServerMessage>>, accepted: map<ClientId, seq<ServerMessage>>,
                      handed: seq<Handed>, to: ClientId, msg: ServerMessage)
    requires ChannelsOk(connections, accepted, handed)
    ensures ChannelsOk(connections - {to}, accepted, handed + [Handed(to, msg)])
  {
    hide StreamTo;
    forall c: ClientId { HandingOver(handed, to, msg, c); }
  }

  class Network {
    const peers: seq<NodeId>
    var peerConnections: seq<Option<Channel<ClusterMessage>>>
    var clientConnections: map<ClientId, Channel<ServerMessage>>

    /** Every call of `SendToClient` and `SendToCluster`, and what each client channel ever accepted. */
    ghost var handed: seq<Handed>
    ghost var handedToPeers: seq<(NodeId, ClusterMessage)>
    ghost var accepted: map<ClientId, seq<ServerMessage>>

    ghost predicate Valid()
      reads this
    {
      && |peerConnections| == |peers|
      && (forall i, j :: 0 <= i < j < |peers| ==> peers[i] != peers[j])
      && ChannelsOk(clientConnections, accepted, handed)
    }

    constructor (peers: seq<NodeId>)
      requires forall i, j :: 0 <= i < j < |peers| ==> peers[i] != peers[j]
      ensures Valid() && this.peers == peers
      ensures handed == [] && handedToPeers == [] && Holds([])
    {
      this.peers := peers;
      peerConnections := seq(|peers|, _ => None);
      clientConnections, handed, handedToPeers, accepted := map[], [], [], map[];
    }

    /** The slots and clients filled so far are exactly those that arrived. */
    ghost predicate Holds(arrivals: seq<NewConnection>)
      requires |peerConnections| == |peers|
      reads this
    {
      && clientConnections.Keys == ClientsOf(arrivals)
      && (forall c :: c in clientConnections ==> clientConnections[c] == Channel([], true))
      && (forall i :: 0 <= i < |peers| ==> (peerConnections[i].Some? <==> peers[i] in PeersOf(arrivals)))
    }

    /** One arrival. From an unknown node it makes the source panic. */
    method Register(connection: NewConnection, ghost before: seq<NewConnection>)
      requires Valid() && handed == [] && Holds(before)
      requires connection.ToPeer? ==> connection.peerId in peers
      modifies this
      ensures Valid() && handed == [] && handedToPeers == old(handedToPeers) && Holds(before + [connection])
    {
      assert (before + [connection])[..|before|] == before;
      match connection {
        case ToPeer(peerId) =>
          var idx := IdToIdx(peers, peerId).value;
          peerConnections := peerConnections[idx := Some(Channel([], true))];
        case ToClient(clientId) =>
          clientConnections := clientConnections[clientId := Channel([], true)];
          accepted := accepted[clientId := []];
      }
    }

    method AllConnected(numClients: nat, ghost arrivals: seq<NewConnection>) returns (all: bool)
      requires Valid() && Holds(arrivals)
      ensures all <==> Ready(peers, numClients, arrivals)
    {
      var allClients := |clientConnections| >= numClients;
      var allPeers := forall i :: 0 <= i < |peerConnections| ==> peerConnections[i].Some?;
      assert |clientConnections| == |clientConnections.Keys|;
      assert forall i :: 0 <= i < |peers| ==> peers[i] in peers;
      all := allClients && allPeers;
    }

    /** The loop of `initialize_connections`, over the connections that arrive on its channel. It looks at
        the exit condition only after an arrival. */
    method InitializeConnections(numClients: nat, arrivals: seq<NewConnection>) returns (used: nat, complete: bool)
      requires Valid() && handed == [] && Holds([])
      requires forall i :: 0 <= i < |arrivals| && arrivals[i].ToPeer? ==> arrivals[i].peerId in peers
      modifies this
      ensures Valid() && handed == [] && handedToPeers == old(handedToPeers)
      ensures complete ==> ExitsAfter(peers, numClients, arrivals, used)
      ensures !complete ==> used == |arrivals| && (used == 0 || !Ready(peers, numClients, arrivals))
      ensures used <= |arrivals| && Holds(arrivals[..used])
    {
      hide Ready, Network.Holds, ClientsOf, PeersOf;
      used, complete := 0, false;
      assert arrivals[..0] == [];
      while used < |arrivals|
        invariant 0 <= used <= |arrivals| && Valid() && handed == [] && handedToPeers == old(handedToPeers)
        invariant Holds(arrivals[..used])
        invariant used == 0 || !Ready(peers, numClients, arrivals[..used])
      {
        Register(arrivals[used], arrivals[..used]);
        assert arrivals[..used] + [arrivals[used]] == arrivals[..used + 1];
        used := used + 1;
        var all := AllConnected(numClients, arrivals[..used]);
        if all {
          complete := true;
          return;
        }
      }
      assert arrivals[..used] == arrivals;
    }

    /** A client whose channel is gone is forgotten; a client that is not connected gets nothing. */
    method SendToClient(to: ClientId, msg: ServerMessage)
      requires Valid()
      modifies this
      ensures Valid() && handed == old(handed) + [Handed(to, msg)]
      ensures handedToPeers == old(handedToPeers) && peerConnections == old(peerConnections)
      ensures to in old(clientConnections) && old(clientConnections)[to].open ==>
        clientConnections == old(clientConnections)[to := Channel(old(clientConnections)[to].sent + [msg], true)]
      ensures to in old(clientConnections) && !old(clientConnections)[to].open ==>
        clientConnections == old(clientConnections) - {to}
      ensures to !in old(clientConnections) ==> clientConnections == old(clientConnections)
    {
      hide ChannelsOk;
      if to in clientConnections {
        var channel := clientConnections[to];
        if channel.open {
          AcceptedOk(clientConnections, accepted, handed, to, msg);
          clientConnections := clientConnections[to := Channel(channel.sent + [msg], true)];
          accepted := accepted[to := channel.sent + [msg]];
        } else {
          NotAcceptedOk(clientConnections, accepted, handed, to, msg);
          clientConnections := clientConnections - {to};
        }
      } else {
        NotAcceptedOk(clientConnections, accepted, handed, to, msg);
        assert clientConnections - {to} == clientConnections;
      }
      handed := handed + [Handed(to, msg)];
    }

    method SendToCluster(to: NodeId, msg: ClusterMessage)
      requires Valid()
      modifies this`peerConnections, this`handedToPeers
      ensures Valid() && handedToPeers == old(handedToPeers) + [(to, msg)]
      ensures forall i :: 0 <= i < |peers| && peers[i] != to ==> peerConnections[i] == old(peerConnections)[i]
      ensures forall i :: 0 <= i < |peers| && old(peerConnections)[i].None? ==> peerConnections[i].None?
      ensures forall i :: 0 <= i < |peers| && peers[i] == to && old(peerConnections)[i].Some? ==>
        var channel := old(peerConnections)[i].value;
        peerConnections[i] == if channel.open then Some(Channel(channel.sent + [msg], true)) else None
    {
      handedToPeers := handedToPeers + [(to, msg)];
      var idx := IdToIdx(peers, to);
      if idx.Some? && peerConnections[idx.value].Some? {
        var channel := peerConnections[idx.value].value;
        var slot := if channel.open then Some(Channel(channel.sent + [msg], true)) else None;
        peerConnections := peerConnections[idx.value := slot];
      }
    }
  }

  // ---------------------------------------------------------------- the client writer loop

  /** One round of the writer loop: how many messages are waiting when it looks, how many the socket takes
      before it fails, and whether the flush goes through. */
  datatype Round = Round(waiting: nat, feeds: nat, flushOk: bool)

  /** No write fails in this round. */
  predicate Clean(round: Round, batchSize: nat) {
    round.feeds >= batchSize && round.flushOk
  }

  /** What `recv_many` takes: at least one message and at most a batch. It takes none only if none are left
      to come, or the batch size is 0. */
  function Batch(round: Round, batchSize: nat, left: nat): (count: nat)
    ensures count <= batchSize && count <= left && (count > round.waiting ==> round.waiting == 0 && count == 1)
    ensures count == batchSize || count == left || count >= round.waiting
  {
    var some := if round.waiting == 0 then 1 else round.waiting;
    if some <= batchSize && some <= left then some
    else if batchSize <= left then batchSize
    else left
  }

  /** The writer loop of a client connection, on the channel `SendToClient` fills. Whatever the batching and
      wherever the socket fails, what reaches the socket is a prefix of what was sent: all that was taken from
      the channel as long as nothing failed, short of at most one batch otherwise, and all there ever was if
      the loop goes on long enough. */
  method WriteToClient(channel: Channel<ServerMessage>, batchSize: nat, rounds: seq<Round>)
    returns (fed: seq<ServerMessage>, taken: nat, ok: bool)
    ensures |fed| <= taken <= |channel.sent| && fed == channel.sent[..|fed|]
    ensures ok ==> |fed| == taken
    ensures !ok ==> taken <= |fed| + batchSize && exists i :: 0 <= i < |rounds| && !Clean(rounds[i], batchSize)
    ensures ok && batchSize > 0 && |rounds| >= |channel.sent| ==> fed == channel.sent
  {
    fed, taken, ok := [], 0, true;
    for done := 0 to |rounds|
      invariant taken <= |channel.sent| && fed == channel.sent[..taken] && ok
      invariant batchSize > 0 ==> taken >= done || taken == |channel.sent|
    {
      var count := Batch(rounds[done], batchSize, |channel.sent| - taken);
      if count == 0 {
        return;
      }
      var from := taken;
      taken := taken + count;
      for i := 0 to count
        invariant fed == channel.sent[..from + i] && i <= rounds[done].feeds
      {
        if i == rounds[done].feeds {
          ok := false;
          return;
        }
        fed := fed + [channel.sent[from + i]];
      }
      if !rounds[done].flushOk {
        ok := false;
        return;
      }
    }
  }

  // ---------------------------------------------------------------- which clients start-up leaves connected

  /** The arrivals one server can see when `m` clients register with it: each id from 1..m at most once. */
  predicate Registered(peers: seq<NodeId>, m: nat, arrivals: seq<NewConnection>) {
    && (forall i :: 0 <= i < |arrivals| ==>
          if arrivals[i].ToPeer? then arrivals[i].peerId in peers else 1 <= arrivals[i].clientId <= m)
    && (forall i, j :: 0 <= i < j < |arrivals| && arrivals[i].ToClient? && arrivals[j].ToClient? ==>
          arrivals[i].clientId != arrivals[j].clientId)
  }

  function UpTo(n: nat): (s: set<nat>)
    ensures |s| == n && forall x :: x in s <==> 1 <= x <= n
  {
    if n == 0 then {} else UpTo(n - 1) + {n}
  }

  lemma {:induction false} ClientsOfBounded(peers: seq<NodeId>, m: nat, arrivals: seq<NewConnection>)
    requires Registered(peers, m, arrivals)
    ensures ClientsOf(arrivals) <= UpTo(m)
  {
    if |arrivals| > 0 {
      ClientsOfBounded(peers, m, arrivals[..|arrivals| - 1]);
    }
  }

  lemma {:induction false} InClientsOf(arrivals: seq<NewConnection>, i: nat)
    requires i < |arrivals|
    ensures arrivals[i].ToClient? ==> arrivals[i].clientId in ClientsOf(arrivals)
    ensures arrivals[i].ToPeer? ==> arrivals[i].peerId in PeersOf(arrivals)
  {
    if i < |arrivals| - 1 {
      InClientsOf(arrivals[..|arrivals| - 1], i);
    }
  }

  lemma {:induction false} ArrivalsOnlyAdd(arrivals: seq<NewConnection>, n: nat)
    requires n <= |arrivals|
    ensures ClientsOf(arrivals[..n]) <= ClientsOf(arrivals) && PeersOf(arrivals[..n]) <= PeersOf(arrivals)
    decreases |arrivals|
  {
    if n < |arrivals| {
      var init := arrivals[..|arrivals| - 1];
      ArrivalsOnlyAdd(init, n);
      assert init[..n] == arrivals[..n];
    } else {
      assert arrivals[..n] == arrivals;
    }
  }

  /** Start-up ends with the first arrival that completes it: no fewer arrivals do. So it ends at most once. */
  lemma ExitIsFirst(peers: seq<NodeId>, numClients: nat, arrivals: seq<NewConnection>, used: nat, n: nat)
    requires ExitsAfter(peers, numClients, arrivals, used) && 0 < n < used
    ensures !Ready(peers, numClients, arrivals[..n]) && !ExitsAfter(peers, numClients, arrivals, n)
  {
    hide ClientsOf, PeersOf;
    var before := arrivals[..used - 1];
    ArrivalsOnlyAdd(before, n);
    assert before[..n] == arrivals[..n];
    SubsetSize(ClientsOf(before[..n]), ClientsOf(before));
  }

  /** If at most `numClients` clients register, start-up can only end with exactly the ids 1..numClients. */
  lemma ExitIdsAreExact(peers: seq<NodeId>, numClients: nat, m: nat, arrivals: seq<NewConnection>, used: nat)
    requires Registered(peers, m, arrivals) && m <= numClients
    requires ExitsAfter(peers, numClients, arrivals, used)
    ensures ClientsOf(arrivals[..used]) == UpTo(numClients)
  {
    ClientsOfBounded(peers, m, arrivals[..used]);
    assert UpTo(m) <= UpTo(numClients);
    SubsetSize(ClientsOf(arrivals[..used]), UpTo(numClients));
  }

  // The peers alone, in order.
  function PeersOnly(peers: seq<NodeId>): (r: seq<NewConnection>)
    ensures |r| == |peers| && forall i :: 0 <= i < |r| ==> r[i] == ToPeer(peers[i])
  {
    seq(|peers|, i requires 0 <= i < |peers| => ToPeer(peers[i]))
  }

  // An arrival order in which the last registered id comes first, then every peer, then the other ids.
  function LateIdFirst(peers: seq<NodeId>, m: nat, n: nat): (r: seq<NewConnection>)
    requires n < m
    ensures |r| == 1 + |peers| + n
    ensures r[0] == ToClient(m)
    ensures forall i :: 1 <= i <= |peers| ==> r[i] == ToPeer(peers[i - 1])
    ensures forall i :: |peers| < i < |r| ==> r[i] == ToClient(i - |peers|)
  {
    [ToClient(m)] + PeersOnly(peers) + seq(n, i requires 0 <= i => ToClient(i + 1))
  }

  lemma {:induction false} FirstExit(peers: seq<NodeId>, numClients: nat, arrivals: seq<NewConnection>, n: nat)
    returns (used: nat)
    requires 0 < n <= |arrivals| && Ready(peers, numClients, arrivals[..n])
    ensures ExitsAfter(peers, numClients, arrivals, used)
  {
    if n == 1 || !Ready(peers, numClients, arrivals[..n - 1]) {
      used := n;
    } else {
      used := FirstExit(peers, numClients, arrivals, n - 1);
    }
  }

  /** With one client too many there is an arrival order after which start-up ends with a client that
      gets no start signal, its id being above `numClients`. */
  lemma OneClientTooMany(peers: seq<NodeId>, numClients: nat, m: nat) returns (arrivals: seq<NewConnection>, used: nat)
    requires numClients < m
    ensures Registered(peers, m, arrivals) && ExitsAfter(peers, numClients, arrivals, used)
    ensures m in ClientsOf(arrivals[..used])
  {
    arrivals := LateIdFirst(peers, m, numClients);
    LateIdFirstIsReady(peers, m, numClients);
    assert arrivals[..|arrivals|] == arrivals;
    used := FirstExit(peers, numClients, arrivals, |arrivals|);
    assert arrivals[..used][0] == ToClient(m);
    InClientsOf(arrivals[..used], 0);
  }

  lemma LateIdFirstIsRegistered(peers: seq<NodeId>, m: nat, n: nat)
    requires n < m
    ensures Registered(peers, m, LateIdFirst(peers, m, n))
  {
    var arrivals := LateIdFirst(peers, m, n);
    forall i | 0 <= i < |arrivals|
      ensures if arrivals[i].ToPeer? then arrivals[i].peerId in peers else 1 <= arrivals[i].clientId <= m
    {
      if 1 <= i <= |peers| {
        assert peers[i - 1] in peers;
      }
    }
  }

  lemma LateIdFirstClients(peers: seq<NodeId>, m: nat, n: nat)
    requires n < m
    ensures UpTo(n) + {m} <= ClientsOf(LateIdFirst(peers, m, n))
  {
    hide ClientsOf, PeersOf;
    var arrivals := LateIdFirst(peers, m, n);
    InClientsOf(arrivals, 0);
    forall x | x in UpTo(n)
      ensures x in ClientsOf(arrivals)
    {
      InClientsOf(arrivals, |peers| + x);
    }
  }

  lemma LateIdFirstPeers(peers: seq<NodeId>, m: nat, n: nat)
    requires n < m
    ensures forall p :: p in peers ==> p in PeersOf(LateIdFirst(peers, m, n))
  {
    hide ClientsOf, PeersOf;
    var arrivals := LateIdFirst(peers, m, n);
    forall p | p in peers
      ensures p in PeersOf(arrivals)
    {
      var i :| 0 <= i < |peers| && peers[i] == p;
      InClientsOf(arrivals, i + 1);
    }
  }

  lemma LateIdFirstIsReady(peers: seq<NodeId>, m: nat, n: nat)
    requires n < m
    ensures Ready(peers, n, LateIdFirst(peers, m, n)) && Registered(peers, m, LateIdFirst(peers, m, n))
  {
    hide ClientsOf, PeersOf, Registered, LateIdFirst;
    LateIdFirstIsRegistered(peers, m, n);
    LateIdFirstClients(peers, m, n);
    LateIdFirstPeers(peers, m, n);
    SubsetSize(UpTo(n), ClientsOf(LateIdFirst(peers, m, n)));
  }

  /** Whenever start-up ends it ends with exactly the clients 1..numClients, the ones the start-signal loop
      covers, if and only if no more clients than that register. */
  lemma IdsExactIffNotTooMany(peers: seq<NodeId>, numClients: nat, m: nat)
    ensures (forall arrivals, used ::
               Registered(peers, m, arrivals) && ExitsAfter(peers, numClients, arrivals, used) ==>
               ClientsOf(arrivals[..used]) == UpTo(numClients))
      <==> m <= numClients
  {
    if m <= numClients {
      forall arrivals, used | Registered(peers, m, arrivals) && ExitsAfter(peers, numClients, arrivals, used)
        ensures ClientsOf(arrivals[..used]) == UpTo(numClients)
      {
        ExitIdsAreExact(peers, numClients, m, arrivals, used);
      }
    } else {
      var arrivals, used := OneClientTooMany(peers, numClients, m);
      assert m !in UpTo(numClients);
    }
  }

  // ---------------------------------------------------------------- when start-up ends, and ends right

  /** The arrivals of a start-up in which every peer and each of `m` clients gets through, in any order. */
  predicate Everyone(peers: seq<NodeId>, m: nat, arrivals: seq<NewConnection>) {
    && Registered(peers, m, arrivals)
    && ClientsOf(arrivals) == UpTo(m) && forall p :: p in peers ==> p in PeersOf(arrivals)
  }

  ghost predicate Ends(peers: seq<NodeId>, numClients: nat, arrivals: seq<NewConnection>) {
    exists used: nat :: ExitsAfter(peers, numClients, arrivals, used)
  }

  /** Start-up ends, with exactly the clients the start-signal loop covers. */
  ghost predicate EndsRight(peers: seq<NodeId>, numClients: nat, arrivals: seq<NewConnection>) {
    exists used: nat :: ExitsAfter(peers, numClients, arrivals, used) && ClientsOf(arrivals[..used]) == UpTo(numClients)
  }

  /** Once everyone has arrived, start-up has ended exactly if somebody arrived at all and enough clients did. */
  lemma EndsIffEnough(peers: seq<NodeId>, numClients: nat, m: nat, arrivals: seq<NewConnection>)
    requires Everyone(peers, m, arrivals)
    ensures Ends(peers, numClients, arrivals) <==> arrivals != [] && m >= numClients
  {
    hide PeersOf, ClientsOf, Registered, UpTo;
    if arrivals != [] && m >= numClients {
      assert arrivals[..|arrivals|] == arrivals;
      var used := FirstExit(peers, numClients, arrivals, |arrivals|);
    }
    forall used: nat | ExitsAfter(peers, numClients, arrivals, used)
      ensures m >= numClients
    {
      ExitNeedsClients(peers, numClients, m, arrivals, used);
    }
  }

  lemma ExitNeedsClients(peers: seq<NodeId>, numClients: nat, m: nat, arrivals: seq<NewConnection>, used: nat)
    requires Registered(peers, m, arrivals) && ExitsAfter(peers, numClients, arrivals, used)
    ensures m >= numClients
  {
    ClientsOfBounded(peers, m, arrivals[..used]);
    SubsetSize(ClientsOf(arrivals[..used]), UpTo(m));
  }

  /** Somebody's arrival is needed: with no peers and no clients nobody ever arrives. */
  lemma SomeoneArrives(peers: seq<NodeId>, m: nat, arrivals: seq<NewConnection>)
    requires Everyone(peers, m, arrivals)
    ensures peers != [] || m > 0 ==> arrivals != []
  {
    if peers != [] {
      assert peers[0] in peers;
    }
    assert m > 0 ==> m in UpTo(m);
  }

  lemma PeersOnlyArrive(peers: seq<NodeId>)
    ensures Registered(peers, 0, PeersOnly(peers))
    ensures forall p :: p in peers ==> p in PeersOf(PeersOnly(peers))
  {
    hide ClientsOf, PeersOf, PeersOnly;
    forall p | p in peers
      ensures p in PeersOf(PeersOnly(peers))
    {
      var i :| 0 <= i < |peers| && peers[i] == p;
      InClientsOf(PeersOnly(peers), i);
    }
  }

  // The arrival order used as a counterexample: the last id first, if there are clients at all.
  function LastIdFirst(peers: seq<NodeId>, m: nat): seq<NewConnection> {
    if m > 0 then LateIdFirst(peers, m, m - 1) else PeersOnly(peers)
  }

  lemma LastIdFirstIsEveryone(peers: seq<NodeId>, m: nat)
    ensures Everyone(peers, m, LastIdFirst(peers, m))
  {
    hide Registered, ClientsOf, PeersOf, LateIdFirst, PeersOnly, UpTo;
    if m > 0 {
      LateIdFirstIsRegistered(peers, m, m - 1);
      LateIdFirstClients(peers, m, m - 1);
      LateIdFirstPeers(peers, m, m - 1);
      UpToNext(m - 1);
    } else {
      PeersOnlyArrive(peers);
    }
    ClientsOfBounded(peers, m, LastIdFirst(peers, m));
  }

  lemma UpToNext(n: nat)
    ensures UpTo(n + 1) == UpTo(n) + {n + 1}
  {
  }

  /** Start-up ends with exactly the clients 1..numClients, whatever the order of arrivals, if and only if
      exactly as many clients register and there is anybody to wait for. */
  lemma StartupIsRight(peers: seq<NodeId>, numClients: nat, m: nat)
    ensures (forall arrivals :: Everyone(peers, m, arrivals) ==> EndsRight(peers, numClients, arrivals))
      <==> m == numClients && (peers != [] || m > 0)
  {
    hide Everyone, Registered, Ready, PeersOf;
    if m == numClients && (peers != [] || m > 0) {
      forall arrivals | Everyone(peers, m, arrivals)
        ensures EndsRight(peers, numClients, arrivals)
      {
        RightWithExactlyEnough(peers, m, arrivals);
      }
    } else {
      LastIdFirstIsEveryone(peers, m);
      WrongOtherwise(peers, numClients, m);
    }
  }

  lemma RightWithExactlyEnough(peers: seq<NodeId>, m: nat, arrivals: seq<NewConnection>)
    requires Everyone(peers, m, arrivals) && (peers != [] || m > 0)
    ensures EndsRight(peers, m, arrivals)
  {
    hide ClientsOf, PeersOf, Ready;
    SomeoneArrives(peers, m, arrivals);
    EndsIffEnough(peers, m, m, arrivals);
    var used :| ExitsAfter(peers, m, arrivals, used);
    ExitIdsAreExact(peers, m, m, arrivals, used);
  }

  lemma WrongOtherwise(peers: seq<NodeId>, numClients: nat, m: nat)
    requires m != numClients || (peers == [] && m == 0)
    ensures !EndsRight(peers, numClients, LastIdFirst(peers, m))
  {
    hide ClientsOf, PeersOf, Ready;
    var arrivals := LastIdFirst(peers, m);
    LastIdFirstIsEveryone(peers, m);
    EndsIffEnough(peers, numClients, m, arrivals);
    forall used: nat | ExitsAfter(peers, numClients, arrivals, used)
      ensures ClientsOf(arrivals[..used]) != UpTo(numClients)
    {
      assert arrivals[..used][0] == ToClient(m);
      InClientsOf(arrivals[..used], 0);
    }
  }
}
