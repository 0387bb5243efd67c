/** The main loops of the mesh are the start-up loop of Networks, each run on what arrives at its node. */
module MeshLoops {
  import opened KV
  import opened Networks
  import opened Mesh
  import opened MeshSafety
  import opened MeshTheorems

  /** What the main loop of `n` would take now, as the start-up loop sees it. */
  function Next(st: State, n: NodeId): seq<NewConnection> {
    if !CanTake(st, n) then []
    else
      match st.channel[n][0]
      case FromPeer(l) => [ToPeer(OtherEnd(st.links[l], n))]
      case FromClient(id) => [ToClient(id)]
  }

  /** What arrived at the main loop of `n` in the first `i` steps of a run. */
  function Arrived(run: seq<State>, steps: seq<Step>, i: nat, n: NodeId): seq<NewConnection>
    requires i <= |steps| <= |run|
  {
    if i == 0 then []
    else Arrived(run, steps, i - 1, n) + (if steps[i - 1] == Take(n) then Next(run[i - 1], n) else [])
  }

  ghost predicate ArePeersOf(peers: seq<NodeId>, cfg: map<NodeId, nat>, n: NodeId) {
    forall p: NodeId :: p in peers <==> p in cfg && p != n
  }

  predicate KnownPeers(peers: seq<NodeId>, arrivals: seq<NewConnection>) {
    forall i :: 0 <= i < |arrivals| && arrivals[i].ToPeer? ==> arrivals[i].peerId in peers
  }

  /** Node `n` stands where the start-up loop stands after these arrivals. */
  predicate Stands(cfg: map<NodeId, nat>, st: State, n: NodeId, peers: seq<NodeId>, arrivals: seq<NewConnection>) {
    && n in cfg && n in st.slots && n in st.clients && KnownPeers(peers, arrivals)
    && st.slots[n].Keys == PeersOf(arrivals) && st.clients[n] == ClientsOf(arrivals)
    && if n in st.done then ExitsAfter(peers, cfg[n], arrivals, |arrivals|)
       else arrivals == [] || !Ready(peers, cfg[n], arrivals)
  }

  lemma CompleteIsReady(cfg: map<NodeId, nat>, n: NodeId, slots: map<NodeId, nat>, clients: set<ClientId>,
                        peers: seq<NodeId>, arrivals: seq<NewConnection>)
    requires n in cfg && ArePeersOf(peers, cfg, n) && slots.Keys == PeersOf(arrivals) && clients == ClientsOf(arrivals)
    ensures Complete(cfg.Keys, n, slots, clients, cfg[n]) <==> Ready(peers, cfg[n], arrivals)
  {
    hide PeersOf, ClientsOf;
  }

  lemma ArrivalsGrow(arrivals: seq<NewConnection>, x: NewConnection)
    ensures PeersOf(arrivals + [x]) == PeersOf(arrivals) + (if x.ToPeer? then {x.peerId} else {})
    ensures ClientsOf(arrivals + [x]) == ClientsOf(arrivals) + (if x.ToClient? then {x.clientId} else {})
  {
    assert (arrivals + [x])[..|arrivals|] == arrivals;
  }

  /** The peer at the other end of a link that reaches a node is one of its peers. */
  lemma NextIsKnown(cfg: map<NodeId, nat>, st: State, n: NodeId, peers: seq<NodeId>)
    requires Inv(cfg, st) && Enabled(cfg, st, Take(n)) && ArePeersOf(peers, cfg, n)
    ensures KnownPeers(peers, Next(st, n)) && |Next(st, n)| == 1
  {
    hide SlotsOk, DoneOk, AllClientsOk, QueuesOk, LinksOk;
    if st.channel[n][0].FromPeer? {
      FirstIsQueued(st, n);
      LinkIsOk(cfg.Keys, st.dialing, st.bound, st.links, st.channel[n][0].l);
    }
  }

  lemma CanTakeIfEnabled(cfg: map<NodeId, nat>, st: State, n: NodeId)
    requires Enabled(cfg, st, Take(n))
    ensures CanTake(st, n) && Shape(cfg, st)
  {
  }

  lemma TakeStands(cfg: map<NodeId, nat>, st: State, n: NodeId, peers: seq<NodeId>, arrivals: seq<NewConnection>)
    requires Inv(cfg, st) && Enabled(cfg, st, Take(n)) && ArePeersOf(peers, cfg, n)
    requires Stands(cfg, st, n, peers, arrivals)
    ensures Stands(cfg, Do(cfg, st, Take(n)), n, peers, arrivals + Next(st, n))
  {
    hide Inv, Do, Enabled, Next, Complete, TakenPeer, TakesClient;
    hide KnownPeers, Ready, ExitsAfter, PeersOf, ClientsOf, ArePeersOf;
    CanTakeIfEnabled(cfg, st, n);
    NextIsTaken(st, n);
    var st', x := Do(cfg, st, Take(n)), Next(st, n)[0];
    TakeEffect(cfg, st, n);
    NextIsKnown(cfg, st, n, peers);
    assert Next(st, n) == [x];
    ArrivalsGrow(arrivals, x);
    CompleteIsReady(cfg, n, st'.slots[n], st'.clients[n], peers, arrivals + [x]);
    ExitsWithLast(peers, cfg[n], arrivals, x);
    KnownGrows(peers, arrivals, x);
  }

  lemma NextIsTaken(st: State, n: NodeId)
    requires CanTake(st, n)
    ensures |Next(st, n)| == 1
    ensures var x := Next(st, n)[0];
      && TakenPeer(st, n) == (if x.ToPeer? then {x.peerId} else {})
      && (if TakesClient(st, n) then {st.channel[n][0].id} else {}) == (if x.ToClient? then {x.clientId} else {})
  {
  }

  lemma ExitsWithLast(peers: seq<NodeId>, need: nat, arrivals: seq<NewConnection>, x: NewConnection)
    requires arrivals == [] || !Ready(peers, need, arrivals)
    ensures Ready(peers, need, arrivals + [x]) ==> ExitsAfter(peers, need, arrivals + [x], |arrivals + [x]|)
  {
    hide Ready;
    var all := arrivals + [x];
    assert all[..|all|] == all && all[..|all| - 1] == arrivals;
  }

  lemma KnownGrows(peers: seq<NodeId>, arrivals: seq<NewConnection>, x: NewConnection)
    requires KnownPeers(peers, arrivals) && KnownPeers(peers, [x])
    ensures KnownPeers(peers, arrivals + [x])
  {
    assert [x][0] == x;
  }

  lemma OthersStand(cfg: map<NodeId, nat>, st: State, step: Step, n: NodeId, peers: seq<NodeId>,
                    arrivals: seq<NewConnection>)
    requires Enabled(cfg, st, step) && step != Take(n) && Stands(cfg, st, n, peers, arrivals)
    ensures Stands(cfg, Do(cfg, st, step), n, peers, arrivals)
  {
    hide Do, Complete, Ready, PeersOf, ClientsOf, ExitsAfter;
    if step.Take? {
      TakeEffect(cfg, st, step.n);
    } else {
      OthersKeepClients(cfg, st, step);
      OthersFillNoSlot(cfg, st, step);
      OthersEndNoLoop(cfg, st, step);
    }
  }

  lemma InitStands(cfg: map<NodeId, nat>, st: State, n: NodeId, peers: seq<NodeId>)
    requires Init(cfg, st) && n in cfg
    ensures Stands(cfg, st, n, peers, [])
  {
  }

  /** In every run each node's slots and clients are what its main loop received, and the node is done exactly if
      the start-up loop ends with the last of these arrivals, and has not ended before. */
  lemma {:induction false} MainLoopIsStartupLoop(cfg: map<NodeId, nat>, run: seq<State>, steps: seq<Step>, i: nat,
                                                 n: NodeId, peers: seq<NodeId>)
    requires IsRun(cfg, run, steps) && i <= |steps| && n in cfg && ArePeersOf(peers, cfg, n)
    ensures Stands(cfg, run[i], n, peers, Arrived(run, steps, i, n))
  {
    hide Init, Inv, Enabled, Do, Stands, Next;
    if i == 0 {
      InitStands(cfg, run[0], n, peers);
    } else {
      MainLoopIsStartupLoop(cfg, run, steps, i - 1, n, peers);
      var before, step := Arrived(run, steps, i - 1, n), steps[i - 1];
      if step == Take(n) {
        RunInv(cfg, run, steps, i - 1);
        TakeStands(cfg, run[i - 1], n, peers, before);
      } else {
        OthersStand(cfg, run[i - 1], step, n, peers, before);
        assert Arrived(run, steps, i, n) == before;
      }
    }
  }
}
