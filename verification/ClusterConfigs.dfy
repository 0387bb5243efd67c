/** Checks on a benchmark cluster configuration (benchmarks/omnipaxos_configs.py). */
module ClusterConfigs {
  import opened KV
  import opened Sets

  datatype FlexibleQuorum = FlexibleQuorum(readQuorumSize: int, writeQuorumSize: int)

  datatype OmniPaxosConfig = OmniPaxosConfig(nodes: seq<int>, initialLeader: int, quorum: Option<FlexibleQuorum>)

  /** `servers` gives each server's `num_clients`; `clients` gives the `server_id` each client connects to. */
  datatype ClusterConfig = ClusterConfig(op: OmniPaxosConfig, servers: map<int, int>, clients: map<int, int>)

  datatype ConfigError =
    | ReadQuorumTooSmall | WriteQuorumTooSmall | NoOverlap
    | ClientKeyWithoutServer | WrongClientCount | UnknownLeader | NodesMismatch

  /** The clients that connect to server `s`. */
  function ClientsAt(clients: map<int, int>, s: int): set<int> {
    set c | c in clients && clients[c] == s
  }

  /** `nodes` is what Python's `sorted` gives for the keys. */
  predicate IsSorted(nodes: seq<int>, keys: set<int>) {
    && (forall i, j :: 0 <= i < j < |nodes| ==> nodes[i] < nodes[j])
    && (forall x :: x in nodes ==> x in keys)
    && (forall x :: x in keys ==> x in nodes)
  }

  /** The first check that fails, in the order of the source, if any does. */
  function Validate(c: ClusterConfig): Option<ConfigError> {
    var q := c.op.quorum;
    if q.Some? && q.value.readQuorumSize < 2 then Some(ReadQuorumTooSmall)
    else if q.Some? && q.value.writeQuorumSize < 2 then Some(WriteQuorumTooSmall)
    else if q.Some? && q.value.readQuorumSize + q.value.writeQuorumSize <= |c.op.nodes| then Some(NoOverlap)
    else if exists k :: k in c.clients && k !in c.servers then Some(ClientKeyWithoutServer)
    else if exists s :: s in c.servers && c.servers[s] != |ClientsAt(c.clients, s)| then Some(WrongClientCount)
    else if c.op.initialLeader !in c.servers then Some(UnknownLeader)
    else if !IsSorted(c.op.nodes, c.servers.Keys) then Some(NodesMismatch)
    else None
  }

  predicate Accepted(c: ClusterConfig) {
    Validate(c) == None
  }

  /** `update_omnipaxos_config`: replace the consensus part, then validate. */
  function Update(c: ClusterConfig, op: OmniPaxosConfig): Option<ClusterConfig> {
    var c' := c.(op := op);
    if Accepted(c') then Some(c') else None
  }

  /** The configuration after a chain of updates, none of which raised. */
  function UpdateAll(c: ClusterConfig, ops: seq<OmniPaxosConfig>): Option<ClusterConfig> {
    if |ops| == 0 then Some(c)
    else
      var before := UpdateAll(c, ops[..|ops| - 1]);
      if before.Some? then Update(before.value, ops[|ops| - 1]) else None
  }

  /** An update succeeds exactly if the configuration with the new consensus part is accepted, and returns it. */
  lemma UpdateIsExact(c: ClusterConfig, op: OmniPaxosConfig)
    ensures Update(c, op).Some? <==> Accepted(ClusterConfig(op, c.servers, c.clients))
    ensures Update(c, op).Some? ==> Update(c, op).value == ClusterConfig(op, c.servers, c.clients)
  {
  }

  /** A chain of updates succeeds exactly if each step is accepted, and leaves the settings of the last. */
  lemma {:induction false} LastUpdateCounts(c: ClusterConfig, ops: seq<OmniPaxosConfig>)
    ensures UpdateAll(c, ops).Some? <==>
      forall i :: 0 <= i < |ops| ==> Accepted(ClusterConfig(ops[i], c.servers, c.clients))
    ensures UpdateAll(c, ops).Some? ==>
      UpdateAll(c, ops).value == ClusterConfig(if ops == [] then c.op else ops[|ops| - 1], c.servers, c.clients)
  {
    hide Accepted, Update;
    if |ops| > 0 {
      var n := |ops| - 1;
      LastUpdateCounts(c, ops[..n]);
      assert forall i :: 0 <= i < n ==> ops[..n][i] == ops[i];
      if UpdateAll(c, ops[..n]).Some? {
        UpdateIsExact(UpdateAll(c, ops[..n]).value, ops[n]);
      }
    }
  }

  // ---------------------------------------------------------------- what is refused

  /** What each error complains of. */
  ghost predicate Complaint(c: ClusterConfig, e: ConfigError) {
    match e
    case ReadQuorumTooSmall => c.op.quorum.Some? && c.op.quorum.value.readQuorumSize < 2
    case WriteQuorumTooSmall => c.op.quorum.Some? && c.op.quorum.value.writeQuorumSize < 2
    case NoOverlap =>
      c.op.quorum.Some? && c.op.quorum.value.readQuorumSize + c.op.quorum.value.writeQuorumSize <= |c.op.nodes|
    case ClientKeyWithoutServer => c.clients.Keys - c.servers.Keys != {}
    case WrongClientCount => Miscounts(c)
    case UnknownLeader => c.op.initialLeader !in c.servers
    case NodesMismatch => !IsSorted(c.op.nodes, c.servers.Keys)
  }

  ghost predicate Miscounts(c: ClusterConfig) {
    exists s :: s in c.servers && |set k | k in c.clients && c.clients[k] == s| != c.servers[s]
  }

  function Rank(e: ConfigError): nat {
    match e
    case ReadQuorumTooSmall => 0
    case WriteQuorumTooSmall => 1
    case NoOverlap => 2
    case ClientKeyWithoutServer => 3
    case WrongClientCount => 4
    case UnknownLeader => 5
    case NodesMismatch => 6
  }

  lemma CountComplaint(c: ClusterConfig)
    ensures Miscounts(c) <==> exists s :: s in c.servers && c.servers[s] != |ClientsAt(c.clients, s)|
  {
    forall s | s in c.servers
      ensures ClientsAt(c.clients, s) == set k | k in c.clients && c.clients[k] == s
    {
    }
  }

  /** A configuration is accepted exactly if there is nothing to complain of; otherwise the error is the first
      complaint, in the order of the source. */
  lemma FirstComplaint(c: ClusterConfig)
    ensures Accepted(c) <==> forall e :: !Complaint(c, e)
    ensures Validate(c).Some? ==>
      Complaint(c, Validate(c).value) && forall e :: Rank(e) < Rank(Validate(c).value) ==> !Complaint(c, e)
  {
    CountComplaint(c);
    KeyComplaint(c);
    hide ClientsAt, IsSorted, Miscounts;
    forall e
      ensures Validate(c) == None || Rank(e) < Rank(Validate(c).value) ==> !Complaint(c, e)
    {
      match e {
        case ReadQuorumTooSmall =>
        case WriteQuorumTooSmall =>
        case NoOverlap =>
        case ClientKeyWithoutServer =>
        case WrongClientCount =>
        case UnknownLeader =>
        case NodesMismatch =>
      }
    }
    assert Validate(c).Some? ==> Complaint(c, Validate(c).value);
  }

  lemma KeyComplaint(c: ClusterConfig)
    ensures Complaint(c, ClientKeyWithoutServer) <==> exists k :: k in c.clients && k !in c.servers
  {
    var strays := c.clients.Keys - c.servers.Keys;
    if strays != {} {
      var k := Member(strays);
      assert k in c.clients && k !in c.servers;
    }
    if k :| k in c.clients && k !in c.servers {
      assert k in strays;
    }
  }

  // ---------------------------------------------------------------- quorum overlap

  /** Any `r` nodes and any `w` nodes have a node in common. */
  ghost predicate Overlap(nodes: set<int>, r: int, w: int) {
    forall a: set<int>, b: set<int> :: a <= nodes && b <= nodes && |a| == r && |b| == w ==> a * b != {}
  }

  /** The check on the sum of the sizes is exact: quorums always overlap if and only if it passes. */
  lemma OverlapIsExact(nodes: set<int>, r: nat, w: nat)
    ensures Overlap(nodes, r, w) <==> r + w > |nodes|
  {
    if r + w > |nodes| {
      forall a: set<int>, b: set<int> | a <= nodes && b <= nodes && |a| == r && |b| == w
        ensures a * b != {}
      {
        SubsetSize(a + b, nodes);
        assert a * b == {} ==> |a + b| == |a| + |b|;
      }
    } else {
      var a := SubsetOfSize(nodes, r);
      assert nodes == a + (nodes - a);
      var b := SubsetOfSize(nodes - a, w);
      assert a * b == {};
    }
  }

  lemma SortedMember(nodes: seq<int>, keys: set<int>, x: int)
    requires IsSorted(nodes, keys)
    ensures x in keys <==> x in nodes
  {
  }

  lemma {:induction false} SortedSize(nodes: seq<int>, keys: set<int>)
    requires IsSorted(nodes, keys)
    ensures |keys| == |nodes|
  {
    if |nodes| == 0 {
      assert forall x :: x in keys <==> x in nodes;
      assert forall x :: x !in nodes;
      assert keys == {};
    } else {
      var n := |nodes| - 1;
      assert nodes == nodes[..n] + [nodes[n]];
      assert nodes[n] !in nodes[..n];
      SortedSize(nodes[..n], keys - {nodes[n]});
      assert nodes[n] in nodes;
    }
  }

  lemma {:induction false} UpdatesStayAccepted(c: ClusterConfig, ops: seq<OmniPaxosConfig>)
    requires Accepted(c)
    ensures UpdateAll(c, ops).Some? ==>
      Accepted(UpdateAll(c, ops).value) && UpdateAll(c, ops).value.servers == c.servers
  {
    if |ops| > 0 {
      UpdatesStayAccepted(c, ops[..|ops| - 1]);
    }
  }

  /** Every configuration reached from an accepted one has each read quorum meet each write quorum, among
      exactly the configured servers. */
  lemma QuorumsOverlap(c: ClusterConfig, ops: seq<OmniPaxosConfig>)
    requires Accepted(c) && UpdateAll(c, ops).Some? && UpdateAll(c, ops).value.op.quorum.Some?
    ensures var q := UpdateAll(c, ops).value.op.quorum.value;
      Overlap(c.servers.Keys, q.readQuorumSize, q.writeQuorumSize)
  {
    UpdatesStayAccepted(c, ops);
    var c' := UpdateAll(c, ops).value;
    var q := c'.op.quorum.value;
    SortedSize(c'.op.nodes, c.servers.Keys);
    OverlapIsExact(c.servers.Keys, q.readQuorumSize, q.writeQuorumSize);
  }

  /** When everything else about it is in order, a configuration is refused for its quorum exactly if a size
      is below two or some read quorum misses some write quorum. */
  lemma RefusedOnlyWithoutOverlap(c: ClusterConfig, q: FlexibleQuorum)
    requires Accepted(c.(op := c.op.(quorum := None)))
    ensures Accepted(c.(op := c.op.(quorum := Some(q)))) <==>
      q.readQuorumSize >= 2 && q.writeQuorumSize >= 2 && Overlap(c.servers.Keys, q.readQuorumSize, q.writeQuorumSize)
  {
    SortedSize(c.op.nodes, c.servers.Keys);
    if q.readQuorumSize >= 2 && q.writeQuorumSize >= 2 {
      OverlapIsExact(c.servers.Keys, q.readQuorumSize, q.writeQuorumSize);
    }
  }

  // ---------------------------------------------------------------- clients and their servers

  /** How many clients the listed servers expect. */
  function Expected(servers: map<int, int>, ids: seq<int>): int
    requires forall i :: 0 <= i < |ids| ==> ids[i] in servers
  {
    if |ids| == 0 then 0
    else
      Expected(servers, ids[..|ids| - 1]) + servers[ids[|ids| - 1]]
  }

  function ClientsAmong(clients: map<int, int>, ids: seq<int>): set<int> {
    set c | c in clients && clients[c] in ids
  }

  lemma AmongStep(clients: map<int, int>, ids: seq<int>, last: int)
    requires last !in ids
    ensures |ClientsAmong(clients, ids + [last])| == |ClientsAmong(clients, ids)| + |ClientsAt(clients, last)|
  {
    assert ClientsAmong(clients, ids + [last]) == ClientsAmong(clients, ids) + ClientsAt(clients, last);
    assert ClientsAmong(clients, ids) !! ClientsAt(clients, last);
  }

  lemma {:induction false} ExpectedCounts(c: ClusterConfig, ids: seq<int>)
    requires forall i, j :: 0 <= i < j < |ids| ==> ids[i] < ids[j]
    requires forall i :: 0 <= i < |ids| ==> ids[i] in c.servers && c.servers[ids[i]] == |ClientsAt(c.clients, ids[i])|
    ensures Expected(c.servers, ids) == |ClientsAmong(c.clients, ids)|
  {
    if |ids| == 0 {
      assert ClientsAmong(c.clients, ids) == {};
    } else {
      var n := |ids| - 1;
      var init, last := ids[..n], ids[n];
      assert ids == init + [last];
      ExpectedCounts(c, init);
      AmongStep(c.clients, init, last);
    }
  }

  /** An accepted configuration gives every client a server to connect to exactly when the servers together
      expect as many clients as there are. */
  lemma EveryClientHasAServer(c: ClusterConfig)
    requires Accepted(c)
    ensures (forall k :: k in c.clients ==> c.clients[k] in c.servers) <==>
      Expected(c.servers, c.op.nodes) == |c.clients|
  {
    ExpectedCounts(c, c.op.nodes);
    var placed := ClientsAmong(c.clients, c.op.nodes);
    assert |c.clients| == |c.clients.Keys|;
    if |placed| == |c.clients.Keys| {
      SubsetSize(placed, c.clients.Keys);
      assert forall k :: k in c.clients ==> k in placed;
    }
    if forall k :: k in c.clients ==> c.clients[k] in c.servers {
      forall k | k in c.clients
        ensures k in placed
      {
        SortedMember(c.op.nodes, c.servers.Keys, c.clients[k]);
      }
      assert placed == c.clients.Keys;
    }
  }

  /** Validation alone does not ensure it: it looks a client's own key up among the servers, and never the
      server the client names. */
  lemma StrayClientIsAccepted()
    ensures var c := ClusterConfig(OmniPaxosConfig([1], 1, None), map[1 := 0], map[1 := 7]);
      Accepted(c) && 1 in c.clients && c.clients[1] !in c.servers
  {
    var c := ClusterConfig(OmniPaxosConfig([1], 1, None), map[1 := 0], map[1 := 7]);
    assert ClientsAt(c.clients, 1) == {};
  }
}
