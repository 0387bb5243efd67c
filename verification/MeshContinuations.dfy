/** How any run of start-up can go on: to a complete mesh, to every node done, and to lost clients. */
module MeshContinuations {
  import opened KV
  import opened Networks
  import opened Sets
  import opened Mesh
  import opened MeshSafety
  import opened MeshTheorems
  import opened MeshLoops

  ghost predicate IsPath(cfg: map<NodeId, nat>, path: seq<State>, steps: seq<Step>, st: State, st': State) {
    && |path| == |steps| + 1 && path[0] == st && path[|steps|] == st'
    && forall i :: 0 <= i < |steps| ==> Enabled(cfg, path[i], steps[i]) && path[i + 1] == Do(cfg, path[i], steps[i])
  }

  /** Some sequence of steps leads from one state to the other. */
  ghost predicate Leads(cfg: map<NodeId, nat>, st: State, st': State) {
    exists path, steps :: IsPath(cfg, path, steps, st, st')
  }

  /** Start-up has come from `from` to `st`. */
  ghost predicate On(cfg: map<NodeId, nat>, from: State, st: State) {
    Leads(cfg, from, st) && Inv(cfg, st)
  }

  lemma Stay(cfg: map<NodeId, nat>, st: State)
    requires Inv(cfg, st)
    ensures On(cfg, st, st)
  {
    assert IsPath(cfg, [st], [], st, st);
  }

  lemma OnShape(cfg: map<NodeId, nat>, from: State, st: State)
    requires On(cfg, from, st)
    ensures Inv(cfg, st) && Shape(cfg, st)
  {
  }

  lemma GoOn(cfg: map<NodeId, nat>, from: State, st: State, step: Step)
    requires On(cfg, from, st) && Enabled(cfg, st, step)
    ensures On(cfg, from, Do(cfg, st, step)) && Shape(cfg, Do(cfg, st, step))
  {
    LeadsOn(cfg, from, st, step);
    StepKeepsInv(cfg, st, step);
    hide Leads, Enabled, Do, LinksOk, SlotsOk, QueuesOk, AllClientsOk, DoneOk;
  }

  lemma LeadsOn(cfg: map<NodeId, nat>, from: State, st: State, step: Step)
    requires Leads(cfg, from, st) && Enabled(cfg, st, step)
    ensures Leads(cfg, from, Do(cfg, st, step))
  {
    hide Enabled, Do;
    var path, steps :| IsPath(cfg, path, steps, from, st);
    var path', steps' := path + [Do(cfg, st, step)], steps + [step];
    forall i | 0 <= i < |steps'|
      ensures Enabled(cfg, path'[i], steps'[i]) && path'[i + 1] == Do(cfg, path'[i], steps'[i])
    {
      if i < |steps| {
        assert steps'[i] == steps[i] && path'[i] == path[i] && path'[i + 1] == path[i + 1];
      }
    }
    assert IsPath(cfg, path', steps', from, Do(cfg, st, step));
  }

  /** A run goes on along any path from its last state. */
  lemma RunGoesOn(cfg: map<NodeId, nat>, run: seq<State>, steps: seq<Step>, st: State)
    returns (run': seq<State>, steps': seq<Step>)
    requires IsRun(cfg, run, steps) && Leads(cfg, run[|steps|], st)
    ensures IsRun(cfg, run', steps') && |run'| == |steps'| + 1 && run'[|steps'|] == st
    ensures run <= run' && steps <= steps'
  {
    hide Enabled, Do, Init;
    var path, more :| IsPath(cfg, path, more, run[|steps|], st);
    run', steps' := run + path[1..], steps + more;
    forall i | 0 <= i < |steps'|
      ensures Enabled(cfg, run'[i], steps'[i]) && run'[i + 1] == Do(cfg, run'[i], steps'[i])
    {
      if i < |steps| {
        assert steps'[i] == steps[i] && run'[i] == run[i] && run'[i + 1] == run[i + 1];
      } else {
        assert steps'[i] == more[i - |steps|];
        assert run'[i] == path[i - |steps|] && run'[i + 1] == path[i + 1 - |steps|];
      }
    }
  }

  lemma RunEndsWell(cfg: map<NodeId, nat>, run: seq<State>, steps: seq<Step>)
    requires IsRun(cfg, run, steps)
    ensures |run| == |steps| + 1 && On(cfg, run[|steps|], run[|steps|])
  {
    hide Inv, On;
    RunLength(cfg, run, steps);
    RunInv(cfg, run, steps, |steps|);
    Stay(cfg, run[|steps|]);
  }

  // ---------------------------------------------------------------- the mesh can be completed

  ghost predicate NoneMissing(cfg: map<NodeId, nat>, st: State) {
    forall n, p :: !MissingPeer(cfg, st, n, p)
  }

  /** The places taken in the channels. */
  function Places(channel: map<NodeId, seq<Arrival>>): set<(NodeId, nat)> {
    set n, i | n in channel && i in UpTo(|channel[n]|) :: (n, i)
  }

  /** Nobody is accepted, registered or queued, and listeners stay. */
  predicate SameClients(st: State, st': State) {
    && st'.accepted == st.accepted && st'.maxClientId == st.maxClientId && st'.waiting == st.waiting
    && st.bound <= st'.bound
  }

  lemma NextKeepsClients(cfg: map<NodeId, nat>, st: State, step: Step)
    requires Enabled(cfg, st, step) && (step.Take? || !IsClientStep(st, step))
    ensures SameClients(st, Do(cfg, st, step))
    ensures IsClientStep(st, step) ==> Places(Do(cfg, st, step).channel) < Places(st.channel)
  {
    hide Places, AfterArrival, Taken, HasRoom, Listening, TakesClient, TakenPeer, Complete;
    if step.Take? {
      TakeEffect(cfg, st, step.n);
      FewerPlaces(st.channel, Do(cfg, st, step).channel, step.n);
    }
  }

  lemma FewerPlaces(channel: map<NodeId, seq<Arrival>>, channel': map<NodeId, seq<Arrival>>, n: NodeId)
    requires n in channel && n in channel' && channel' == channel[n := channel'[n]] && |channel'[n]| < |channel[n]|
    ensures Places(channel') < Places(channel)
  {
    var last := |channel[n]|;
    assert (n, last) in Places(channel) && (n, last) !in Places(channel');
  }

  lemma {:induction false} MeshGoesOn(cfg: map<NodeId, nat>, from: State, st: State) returns (st': State)
    requires On(cfg, from, st)
    ensures On(cfg, from, st') && SameClients(st, st') && NoneMissing(cfg, st')
    decreases Remaining(cfg, st), Places(st.channel)
  {
    hide On, Inv, Enabled, Do, MissingPeer, Remaining, Places, IsClientStep;
    st' := st;
    if n, p :| MissingPeer(cfg, st, n, p) {
      OnShape(cfg, from, st);
      var step := NextStep(cfg, st, n, p);
      GoOn(cfg, from, st, step);
      StepsCountDown(cfg, st, step);
      NextKeepsClients(cfg, st, step);
      st' := MeshGoesOn(cfg, from, Do(cfg, st, step));
    }
  }

  /** Every run can go on until the mesh is complete, without any client doing anything. */
  lemma MeshCanComplete(cfg: map<NodeId, nat>, run: seq<State>, steps: seq<Step>)
    returns (run': seq<State>, steps': seq<Step>)
    requires IsRun(cfg, run, steps)
    ensures IsRun(cfg, run', steps') && |run'| == |steps'| + 1 && run <= run' && steps <= steps'
    ensures |run| == |steps| + 1 && SameClients(run[|steps|], run'[|steps'|])
    ensures NoneMissing(cfg, run'[|steps'|])
  {
    hide IsRun, Inv, NoneMissing, SameClients;
    RunEndsWell(cfg, run, steps);
    var st' := MeshGoesOn(cfg, run[|steps|], run[|steps|]);
    run', steps' := RunGoesOn(cfg, run, steps, st');
  }

  // ---------------------------------------------------------------- clients on their way

  /** An accepted client registers. */
  lemma ClientIsNamed(cfg: map<NodeId, nat>, from: State, st: State, n: NodeId) returns (st': State)
    requires On(cfg, from, st) && Shape(cfg, st) && n in cfg && st.accepted[n] > 0
    ensures On(cfg, from, st') && Shape(cfg, st')
    ensures var id := st.maxClientId[n] + 1;
      st' == st.(accepted := st.accepted[n := st.accepted[n] - 1], maxClientId := st.maxClientId[n := id],
                 waiting := st.waiting[n := st.waiting[n] + {id}])
  {
    hide On, CanTake, HasRoom, Listening, AfterArrival, Taken;
    GoOn(cfg, from, st, ClientRegisters(n));
    st' := Do(cfg, st, ClientRegisters(n));
  }

  /** Another client is accepted and registers. */
  lemma ClientComes(cfg: map<NodeId, nat>, from: State, st: State, n: NodeId) returns (st': State)
    requires On(cfg, from, st) && Shape(cfg, st) && n in cfg && Listening(st, n)
    ensures On(cfg, from, st') && Shape(cfg, st')
    ensures var id := st.maxClientId[n] + 1;
      st' == st.(maxClientId := st.maxClientId[n := id], waiting := st.waiting[n := st.waiting[n] + {id}])
  {
    hide On, CanTake, HasRoom, AfterArrival, Taken;
    GoOn(cfg, from, st, ClientConnects(n));
    var mid := st.(accepted := st.accepted[n := st.accepted[n] + 1]);
    st' := ClientIsNamed(cfg, from, mid, n);
    assert st'.accepted == st.accepted;
  }

  lemma ClientIsQueued(cfg: map<NodeId, nat>, from: State, st: State, n: NodeId, id: ClientId) returns (st': State)
    requires On(cfg, from, st) && Shape(cfg, st) && n in cfg && HasRoom(st, n) && id in st.waiting[n]
    ensures On(cfg, from, st') && Shape(cfg, st')
    ensures st' == st.(waiting := st.waiting[n := st.waiting[n] - {id}],
                       channel := st.channel[n := st.channel[n] + [FromClient(id)]])
  {
    hide On, CanTake, Listening, AfterArrival, Taken;
    GoOn(cfg, from, st, ClientQueues(n, id));
    st' := Do(cfg, st, ClientQueues(n, id));
  }

  // ---------------------------------------------------------------- every node can finish

  /** With no peer missing, what a main loop finds in its channel is a client. */
  lemma HeadIsClient(cfg: map<NodeId, nat>, st: State, n: NodeId)
    requires Inv(cfg, st) && NoneMissing(cfg, st) && n in cfg && st.channel[n] != []
    ensures TakesClient(st, n)
  {
    hide LinksOk, SlotsOk, QueuesOk, AllClientsOk, DoneOk, IsQueued;
    if st.channel[n][0].FromPeer? {
      forall p | p in cfg && p != n
        ensures p in st.slots[n]
      {
        assert !MissingPeer(cfg, st, n, p);
      }
      FirstIsQueued(st, n);
      CompleteHasNoEnds(cfg.Keys, st.dialing, st.bound, st.links, st.slots, {}, 0, n, st.channel[n][0].l);
    }
  }

  /** A node that is not done can be brought something to take. */
  lemma SomethingArrives(cfg: map<NodeId, nat>, from: State, st: State, n: NodeId) returns (st': State)
    requires On(cfg, from, st) && Shape(cfg, st) && n in cfg && n !in st.done
    ensures On(cfg, from, st') && Shape(cfg, st') && st'.channel[n] != []
    ensures st'.slots == st.slots && st'.done == st.done && st'.clients == st.clients
  {
    hide On, CanTake, AfterArrival, Taken;
    st' := st;
    if st.channel[n] == [] {
      if n !in st.bound {
        GoOn(cfg, from, st, Bind(n));
        st' := st.(bound := st.bound + {n});
      }
      st' := ClientComes(cfg, from, st', n);
      st' := ClientIsQueued(cfg, from, st', n, st'.maxClientId[n]);
    }
  }

  lemma SameSlotsNoneMissing(cfg: map<NodeId, nat>, st: State, st': State)
    requires NoneMissing(cfg, st) && st'.slots == st.slots
    ensures NoneMissing(cfg, st')
  {
    forall n, p
      ensures !MissingPeer(cfg, st', n, p)
    {
      assert !MissingPeer(cfg, st, n, p);
    }
  }

  /** Taking a client: one more is connected, and the loop ends if they are enough. */
  lemma ClientIsTaken(cfg: map<NodeId, nat>, from: State, st: State, n: NodeId) returns (st': State)
    requires On(cfg, from, st) && Shape(cfg, st) && n in cfg && n !in st.done && TakesClient(st, n)
    requires NoneMissing(cfg, st)
    ensures On(cfg, from, st') && Shape(cfg, st') && NoneMissing(cfg, st')
    ensures st'.slots == st.slots && st'.bound == st.bound && st.done <= st'.done
    ensures st'.accepted == st.accepted && st'.maxClientId == st.maxClientId && st'.waiting == st.waiting
    ensures |st'.channel[n]| < |st.channel[n]| && st'.clients[n] == st.clients[n] + {st.channel[n][0].id}
    ensures |st'.clients[n]| == |st.clients[n]| + 1
    ensures n in st'.done <==> |st'.clients[n]| >= cfg[n]
  {
    hide On, NoneMissing, HasRoom, Listening, AfterArrival, Taken, TakesClient, TakenPeer, Inv, Do, Complete;
    OnShape(cfg, from, st);
    ClientCanBeTaken(cfg, st, n);
    GoOn(cfg, from, st, Take(n));
    st' := Do(cfg, st, Take(n));
    TakeEffect(cfg, st, n);
    TakenClientKeepsInv(cfg, st, n);
    SameSlotsNoneMissing(cfg, st, st');
    EnoughIsComplete(cfg, st', n);
  }

  lemma ClientCanBeTaken(cfg: map<NodeId, nat>, st: State, n: NodeId)
    requires Shape(cfg, st) && TakesClient(st, n) && n !in st.done
    ensures Enabled(cfg, st, Take(n)) && st.channel[n] != [] && st.channel[n][0].FromClient?
  {
  }

  lemma EnoughIsComplete(cfg: map<NodeId, nat>, st: State, n: NodeId)
    requires NoneMissing(cfg, st) && n in cfg && n in st.slots && n in st.clients
    ensures Complete(cfg.Keys, n, st.slots[n], st.clients[n], cfg[n]) <==> |st.clients[n]| >= cfg[n]
  {
    hide NoneMissing;
    NoneMissingHere(cfg, st, n);
  }

  lemma NoneMissingHere(cfg: map<NodeId, nat>, st: State, n: NodeId)
    requires NoneMissing(cfg, st) && n in cfg && n in st.slots
    ensures forall p :: p in cfg && p != n ==> p in st.slots[n]
  {
    forall p | p in cfg && p != n
      ensures p in st.slots[n]
    {
      assert !MissingPeer(cfg, st, n, p);
    }
  }

  lemma {:induction false} NodeFinishes(cfg: map<NodeId, nat>, from: State, st: State, n: NodeId) returns (st': State)
    requires On(cfg, from, st) && Shape(cfg, st) && NoneMissing(cfg, st) && n in cfg && n !in st.done
    ensures On(cfg, from, st') && Shape(cfg, st') && NoneMissing(cfg, st') && st.done + {n} <= st'.done
    decreases if |st.clients[n]| <= cfg[n] then cfg[n] + 1 - |st.clients[n]| else 0
  {
    hide On, Inv, NoneMissing, TakesClient;
    st' := SomethingArrives(cfg, from, st, n);
    SameSlotsNoneMissing(cfg, st, st');
    OnShape(cfg, from, st');
    HeadIsClient(cfg, st', n);
    st' := ClientIsTaken(cfg, from, st', n);
    if n !in st'.done {
      st' := NodeFinishes(cfg, from, st', n);
    }
  }

  lemma {:induction false} AllFinish(cfg: map<NodeId, nat>, from: State, st: State) returns (st': State)
    requires On(cfg, from, st) && Shape(cfg, st) && NoneMissing(cfg, st)
    ensures On(cfg, from, st') && cfg.Keys <= st'.done
    decreases cfg.Keys - st.done
  {
    hide On, Inv, NoneMissing;
    st' := st;
    if n :| n in cfg && n !in st.done {
      var next := NodeFinishes(cfg, from, st, n);
      assert n in cfg.Keys - st.done && n !in cfg.Keys - next.done;
      st' := AllFinish(cfg, from, next);
    }
  }

  /** Every run can go on, with clients connecting, until every node is done: start-up never gets into a state
      from which some node cannot finish. */
  lemma EveryNodeCanFinish(cfg: map<NodeId, nat>, run: seq<State>, steps: seq<Step>)
    returns (run': seq<State>, steps': seq<Step>)
    requires IsRun(cfg, run, steps)
    ensures IsRun(cfg, run', steps') && |run'| == |steps'| + 1 && run <= run' && steps <= steps'
    ensures forall n :: n in cfg ==> n in run'[|steps'|].done
  {
    hide IsRun, Inv, NoneMissing;
    RunEndsWell(cfg, run, steps);
    var from := run[|steps|];
    var st' := MeshGoesOn(cfg, from, from);
    OnShape(cfg, from, st');
    st' := AllFinish(cfg, from, st');
    run', steps' := RunGoesOn(cfg, run, steps, st');
  }

  // ---------------------------------------------------------------- how many clients a node can lose

  /** How many clients node `n` ends with at least: what it waits for, but a node on its own whose loop has only
      clients to wake it needs one in any case. */
  function Need(cfg: map<NodeId, nat>, n: NodeId): nat
    requires n in cfg
  {
    if |cfg| == 1 && cfg[n] == 0 then 1 else cfg[n]
  }

  lemma {:induction false} PeerList(nodes: set<NodeId>) returns (peers: seq<NodeId>)
    ensures forall p: NodeId :: p in peers <==> p in nodes
  {
    if nodes == {} {
      peers := [];
    } else {
      var x :| x in nodes;
      var rest := PeerList(nodes - {x});
      peers := [x] + rest;
    }
  }

  lemma PeersExist(cfg: map<NodeId, nat>, n: NodeId) returns (peers: seq<NodeId>)
    requires n in cfg
    ensures ArePeersOf(peers, cfg, n)
    ensures |cfg| == 1 <==> peers == []
  {
    peers := PeerList(cfg.Keys - {n});
    assert cfg.Keys == (cfg.Keys - {n}) + {n} && |cfg| == |cfg.Keys|;
    if peers != [] {
      assert peers[0] in peers;
    } else {
      assert forall p: NodeId :: p in peers <==> p in cfg.Keys - {n};
      assert cfg.Keys - {n} == {};
    }
  }

  /** What the main loop of `n` received, in some run to this state. */
  lemma History(cfg: map<NodeId, nat>, from: State, st: State, n: NodeId, peers: seq<NodeId>)
    returns (arrivals: seq<NewConnection>)
    requires Init(cfg, from) && Leads(cfg, from, st) && n in cfg && ArePeersOf(peers, cfg, n)
    ensures Stands(cfg, st, n, peers, arrivals)
  {
    hide Leads, Stands, Init, ArePeersOf;
    var run0: seq<State>, steps0: seq<Step> := [from], [];
    assert IsRun(cfg, run0, steps0);
    hide IsRun;
    var run, steps := RunGoesOn(cfg, run0, steps0, st);
    MainLoopIsStartupLoop(cfg, run, steps, |steps|, n, peers);
    arrivals := Arrived(run, steps, |steps|, n);
  }

  /** A node without clients and with all its peers is done exactly if it needs none. */
  lemma DoneWithoutClients(cfg: map<NodeId, nat>, n: NodeId, st: State, peers: seq<NodeId>,
                           arrivals: seq<NewConnection>)
    requires n in cfg && ArePeersOf(peers, cfg, n) && (|cfg| == 1 <==> peers == [])
    requires Stands(cfg, st, n, peers, arrivals) && st.clients[n] == {}
    requires forall p :: p in cfg && p != n ==> p in st.slots[n]
    ensures n in st.done <==> Need(cfg, n) == 0
  {
    hide PeersOf, ClientsOf;
    if arrivals != [] {
      InClientsOf(arrivals, 0);
      assert arrivals[..|arrivals|] == arrivals;
    } else {
      NothingArrived();
      NoPeers(peers);
    }
  }

  lemma NoPeers(peers: seq<NodeId>)
    ensures (forall p :: p !in peers) ==> peers == []
  {
    if peers != [] {
      assert peers[0] in peers;
    }
  }

  lemma NothingArrived()
    ensures PeersOf([]) == {} && ClientsOf([]) == {}
  {
  }

  /** A node that is done has the clients it needs. */
  lemma DoneHasNeed(cfg: map<NodeId, nat>, n: NodeId, st: State, peers: seq<NodeId>, arrivals: seq<NewConnection>)
    requires n in cfg && ArePeersOf(peers, cfg, n) && (|cfg| == 1 <==> peers == [])
    requires Stands(cfg, st, n, peers, arrivals) && n in st.done
    ensures |st.clients[n]| >= Need(cfg, n)
  {
    hide PeersOf, ClientsOf;
    assert arrivals[..|arrivals|] == arrivals;
    InClientsOf(arrivals, 0);
    if peers == [] {
      assert arrivals[0].ToClient?;
      assert st.clients[n] != {};
    }
  }

  /** Node `n` has all its peers, and exactly the clients 1..c, who are all that ever registered; `a` more have
      been accepted. */
  ghost predicate HasClients(cfg: map<NodeId, nat>, st: State, n: NodeId, c: nat, a: nat) {
    && Shape(cfg, st) && NoneMissing(cfg, st) && n in cfg && n in st.bound
    && st.waiting[n] == {} && st.maxClientId[n] == c && st.clients[n] == UpTo(c) && st.accepted[n] == a
  }

  /** The next client is queued in an empty channel. */
  lemma OnlyClientComes(cfg: map<NodeId, nat>, from: State, st: State, n: NodeId) returns (st': State)
    requires On(cfg, from, st) && Shape(cfg, st) && n in cfg && Listening(st, n)
    requires st.channel[n] == [] && st.waiting[n] == {}
    ensures On(cfg, from, st') && Shape(cfg, st') && TakesClient(st', n)
    ensures var id := st.maxClientId[n] + 1;
      st' == st.(maxClientId := st.maxClientId[n := id], channel := st.channel[n := [FromClient(id)]])
  {
    hide On;
    st' := ClientComes(cfg, from, st, n);
    st' := ClientIsQueued(cfg, from, st', n, st.maxClientId[n] + 1);
    assert st'.waiting[n] == {} && st'.waiting == st.waiting;
    assert st'.channel[n] == [FromClient(st.maxClientId[n] + 1)];
  }

  /** One more client gets through to the main loop, which ends if that was the last it waits for. */
  lemma ClientGetsThrough(cfg: map<NodeId, nat>, from: State, st: State, n: NodeId, c: nat, a: nat) returns (st': State)
    requires On(cfg, from, st) && HasClients(cfg, st, n, c, a) && st.channel[n] == [] && n !in st.done
    ensures On(cfg, from, st') && HasClients(cfg, st', n, c + 1, a) && st'.channel[n] == []
    ensures n in st'.done <==> c + 1 >= cfg[n]
  {
    hide On, NoneMissing, UpTo, HasClients, Shape, TakesClient;
    HasClientsNow(cfg, st, n, c, a);
    var mid := OnlyClientComes(cfg, from, st, n);
    SameSlotsNoneMissing(cfg, st, mid);
    st' := ClientIsTaken(cfg, from, mid, n);
    OneMoreClient(cfg, st, st', n, c, a);
  }

  lemma HasClientsNow(cfg: map<NodeId, nat>, st: State, n: NodeId, c: nat, a: nat)
    requires HasClients(cfg, st, n, c, a)
    ensures Shape(cfg, st) && NoneMissing(cfg, st) && n in cfg && n in st.bound && n in st.waiting && n in st.channel
    ensures n in st.maxClientId && n in st.clients && st.waiting[n] == {} && st.maxClientId[n] == c
    ensures st.clients[n] == UpTo(c)
  {
  }

  lemma OneMoreClient(cfg: map<NodeId, nat>, st: State, st': State, n: NodeId, c: nat, a: nat)
    requires HasClients(cfg, st, n, c, a) && Shape(cfg, st') && NoneMissing(cfg, st')
    requires st'.bound == st.bound && st'.waiting == st.waiting && st'.accepted == st.accepted
    requires st'.maxClientId[n] == c + 1 && st'.clients[n] == st.clients[n] + {c + 1}
    ensures HasClients(cfg, st', n, c + 1, a) && |st'.clients[n]| == c + 1
  {
    hide NoneMissing;
    assert UpTo(c) + {c + 1} == UpTo(c + 1);
  }

  lemma {:induction false} ClientsGetThrough(cfg: map<NodeId, nat>, from: State, st: State, n: NodeId, c: nat, a: nat)
    returns (st': State)
    requires On(cfg, from, st) && HasClients(cfg, st, n, c, a) && st.channel[n] == [] && n !in st.done
    requires n in cfg && c < Need(cfg, n)
    ensures On(cfg, from, st') && HasClients(cfg, st', n, Need(cfg, n), a) && n in st'.done
    decreases Need(cfg, n) - c
  {
    hide On, NoneMissing;
    st' := ClientGetsThrough(cfg, from, st, n, c, a);
    if c + 1 < Need(cfg, n) {
      st' := ClientsGetThrough(cfg, from, st', n, c + 1, a);
    }
  }

  /** With no clients registered, a node that misses no peer has an empty channel. */
  lemma MeshWithoutClients(cfg: map<NodeId, nat>, st: State, n: NodeId, a: nat)
    requires Inv(cfg, st) && NoneMissing(cfg, st) && n in cfg && n in st.bound
    requires n in st.maxClientId && st.maxClientId[n] == 0 && n in st.accepted && st.accepted[n] == a
    ensures HasClients(cfg, st, n, 0, a) && st.channel[n] == []
  {
    hide LinksOk, SlotsOk, QueuesOk, AllClientsOk, DoneOk, NoneMissing;
    NodesClientsOk(st, n);
    assert st.waiting[n] == {} && st.clients[n] == {} && Ids(st.channel[n]) == {};
    if st.channel[n] != [] {
      HeadIsClient(cfg, st, n);
      FirstIsId(st.channel[n]);
    }
  }

  /** A node that listens, with `a` clients accepted and nothing else done yet. */
  lemma {:induction false} Accepted(cfg: map<NodeId, nat>, from: State, n: NodeId, a: nat) returns (st: State)
    requires Init(cfg, from) && n in cfg
    ensures On(cfg, from, st) && Shape(cfg, st) && Listening(st, n) && st.maxClientId[n] == 0 && st.accepted[n] == a
  {
    hide On, CanTake, HasRoom, AfterArrival, Taken;
    if a == 0 {
      InitInv(cfg, from);
      Stay(cfg, from);
      GoOn(cfg, from, from, Bind(n));
      st := from.(bound := from.bound + {n});
    } else {
      var before := Accepted(cfg, from, n, a - 1);
      GoOn(cfg, from, before, ClientConnects(n));
      st := before.(accepted := before.accepted[n := a]);
    }
  }

  /** Node `n` is done with the clients 1..c; `d` have registered, all others of them lost; `a` are still to. */
  predicate Loses(cfg: map<NodeId, nat>, st: State, n: NodeId, c: nat, d: nat, a: nat) {
    && Shape(cfg, st) && n in cfg && n in st.done && st.clients[n] == UpTo(c) && st.waiting[n] == {}
    && st.maxClientId[n] == d && st.accepted[n] == a
  }

  /** At a node that is done, an accepted client registers and finds the main loop gone. */
  lemma OneLost(cfg: map<NodeId, nat>, from: State, st: State, n: NodeId, c: nat, d: nat, a: nat) returns (st': State)
    requires On(cfg, from, st) && Loses(cfg, st, n, c, d, a) && a > 0
    ensures On(cfg, from, st') && Loses(cfg, st', n, c, d + 1, a - 1)
  {
    hide On, CanTake, HasRoom, Listening, AfterArrival, Taken, UpTo;
    var mid := ClientIsNamed(cfg, from, st, n);
    GoOn(cfg, from, mid, ClientLost(n, d + 1));
    st' := Do(cfg, mid, ClientLost(n, d + 1));
  }

  lemma {:induction false} ManyLost(cfg: map<NodeId, nat>, from: State, st: State, n: NodeId, c: nat, d: nat, a: nat,
                                    m: nat) returns (st': State)
    requires On(cfg, from, st) && Loses(cfg, st, n, c, d, a) && d <= m <= d + a
    ensures On(cfg, from, st') && Loses(cfg, st', n, c, m, d + a - m)
    decreases m - d
  {
    hide On, Loses;
    st' := st;
    if d < m {
      st' := OneLost(cfg, from, st, n, c, d, a);
      st' := ManyLost(cfg, from, st', n, c, d + 1, a - 1, m);
    }
  }

  lemma OthersLost(cfg: map<NodeId, nat>, st: State, n: NodeId, c: nat, m: nat, a: nat)
    requires Inv(cfg, st) && Loses(cfg, st, n, c, m, a)
    ensures st.lost[n] == UpTo(m) - UpTo(c)
  {
    hide Inv, UpTo;
    DoneNode(cfg, st, n);
  }

  /** A node with no clients registered and `a` accepted goes on to have exactly those it needs, and be done. */
  lemma GetsWhatItNeeds(cfg: map<NodeId, nat>, from: State, st: State, n: NodeId, a: nat) returns (st': State)
    requires Init(cfg, from) && On(cfg, from, st) && HasClients(cfg, st, n, 0, a) && st.channel[n] == []
    ensures On(cfg, from, st') && n in cfg && HasClients(cfg, st', n, Need(cfg, n), a) && n in st'.done
  {
    hide Leads, Inv, NoneMissing, ArePeersOf, Stands, Init;
    var peers := PeersExist(cfg, n);
    var arrivals := History(cfg, from, st, n, peers);
    NoneMissingHere(cfg, st, n);
    DoneWithoutClients(cfg, n, st, peers, arrivals);
    st' := st;
    if Need(cfg, n) > 0 {
      st' := ClientsGetThrough(cfg, from, st, n, 0, a);
    }
  }

  /** Any number of clients beyond those a node needs can be lost: in some run `m` register, the node ends with
      the clients 1..Need, and all the others are lost. */
  lemma ClientsCanBeLost(cfg: map<NodeId, nat>, n: NodeId, m: nat) returns (run: seq<State>, steps: seq<Step>)
    requires n in cfg && m >= Need(cfg, n)
    ensures IsRun(cfg, run, steps) && |run| == |steps| + 1
    ensures var st := run[|steps|];
      && Shape(cfg, st) && n in st.done && st.maxClientId[n] == m
      && st.clients[n] == UpTo(Need(cfg, n)) && st.lost[n] == UpTo(m) - UpTo(Need(cfg, n))
  {
    hide IsRun, On, Inv, NoneMissing, UpTo, Need;
    var from := InitialState(cfg);
    hide Init;
    var st := Accepted(cfg, from, n, m);
    st := MeshGoesOn(cfg, from, st);
    OnShape(cfg, from, st);
    MeshWithoutClients(cfg, st, n, m);
    st := GetsWhatItNeeds(cfg, from, st, n, m);
    st := ManyLost(cfg, from, st, n, Need(cfg, n), Need(cfg, n), m, m);
    OnShape(cfg, from, st);
    OthersLost(cfg, st, n, Need(cfg, n), m, Need(cfg, n));
    run, steps := RunTo(cfg, from, st);
  }

  lemma InitialState(cfg: map<NodeId, nat>) returns (st: State)
    ensures Init(cfg, st)
  {
    st := State(DialTasks(cfg.Keys), {}, [], map n | n in cfg :: map[], map n | n in cfg :: [],
                map n | n in cfg :: 0, map n | n in cfg :: 0, map n | n in cfg :: {}, map n | n in cfg :: {},
                map n | n in cfg :: {}, {});
  }

  lemma RunTo(cfg: map<NodeId, nat>, from: State, st: State) returns (run: seq<State>, steps: seq<Step>)
    requires Init(cfg, from) && On(cfg, from, st)
    ensures IsRun(cfg, run, steps) && |run| == |steps| + 1 && run[|steps|] == st
  {
    hide Init, Leads;
    var run0: seq<State>, steps0: seq<Step> := [from], [];
    assert IsRun(cfg, run0, steps0);
    hide IsRun;
    run, steps := RunGoesOn(cfg, run0, steps0, st);
  }

  /** In this run `m` clients register with node `n`, it is done, and one of them is lost. */
  ghost predicate LosesClient(cfg: map<NodeId, nat>, n: NodeId, m: nat, run: seq<State>, steps: seq<Step>) {
    && IsRun(cfg, run, steps)
    && var st := run[|steps|];
       n in st.done && n in st.maxClientId && n in st.lost && st.maxClientId[n] == m && st.lost[n] != {}
  }

  /** Exactly when can a node lose a client: if and only if more register than it needs. */
  lemma LosesIffTooMany(cfg: map<NodeId, nat>, n: NodeId, m: nat)
    requires n in cfg
    ensures (exists run, steps :: LosesClient(cfg, n, m, run, steps)) <==> m > Need(cfg, n)
  {
    hide IsRun, UpTo, Need;
    if m > Need(cfg, n) {
      var run, steps := ClientsCanBeLost(cfg, n, m);
      assert m in run[|steps|].lost[n];
      assert LosesClient(cfg, n, m, run, steps);
    }
    forall run, steps | LosesClient(cfg, n, m, run, steps)
      ensures m > Need(cfg, n)
    {
      LostMeansTooMany(cfg, n, m, run, steps);
    }
  }

  lemma LostMeansTooMany(cfg: map<NodeId, nat>, n: NodeId, m: nat, run: seq<State>, steps: seq<Step>)
    requires n in cfg && LosesClient(cfg, n, m, run, steps)
    ensures m > Need(cfg, n)
  {
    hide IsRun, Inv, Need, ArePeersOf, Stands;
    RunLength(cfg, run, steps);
    RunInv(cfg, run, steps, |steps|);
    var st := run[|steps|];
    DoneNode(cfg, st, n);
    var peers := PeersExist(cfg, n);
    MainLoopIsStartupLoop(cfg, run, steps, |steps|, n, peers);
    DoneHasNeed(cfg, n, st, peers, Arrived(run, steps, |steps|, n));
    var id :| id in st.lost[n];
    assert st.clients[n] <= UpTo(m) - {id};
    SubsetSize(st.clients[n], UpTo(m) - {id});
  }
}
