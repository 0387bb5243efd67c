/** What start-up reaches, in every run. */
module MeshTheorems {
  import opened KV
  import opened Networks
  import opened Sets
  import opened Mesh
  import opened MeshSafety

  ghost predicate IsRun(cfg: map<NodeId, nat>, run: seq<State>, steps: seq<Step>) {
    && |run| == |steps| + 1
    && Init(cfg, run[0])
    && forall i :: 0 <= i < |steps| ==> Enabled(cfg, run[i], steps[i]) && run[i + 1] == Do(cfg, run[i], steps[i])
  }

  lemma {:induction false} RunInv(cfg: map<NodeId, nat>, run: seq<State>, steps: seq<Step>, i: nat)
    requires IsRun(cfg, run, steps) && i < |run|
    ensures Inv(cfg, run[i])
  {
    hide Inv, Init, Do, Enabled;
    if i == 0 {
      InitInv(cfg, run[0]);
    } else {
      RunInv(cfg, run, steps, i - 1);
      StepKeepsInv(cfg, run[i - 1], steps[i - 1]);
    }
  }

  lemma RunLength(cfg: map<NodeId, nat>, run: seq<State>, steps: seq<Step>)
    requires IsRun(cfg, run, steps)
    ensures |run| == |steps| + 1
  {
  }

  /** Steps by and for clients; taking an arrival is one if the arrival is a client. */
  predicate IsClientStep(st: State, step: Step) {
    || step.ClientConnects? || step.ClientRegisters? || step.ClientQueues? || step.ClientLost?
    || (step.Take? && TakesClient(st, step.n))
  }

  predicate TakesClient(st: State, n: NodeId) {
    n in st.channel && st.channel[n] != [] && st.channel[n][0].FromClient?
  }

  /** The peer, if any, whose connection the main loop of `n` takes next. */
  function TakenPeer(st: State, n: NodeId): set<NodeId>
    requires CanTake(st, n)
  {
    if st.channel[n][0].FromPeer? then {OtherEnd(st.links[st.channel[n][0].l], n)} else {}
  }

  // ---------------------------------------------------------------- what taking an arrival changes

  lemma TakenEffect(cfg: map<NodeId, nat>, st: State, n: NodeId)
    requires Shape(cfg, st) && CanTake(st, n)
    ensures var st' := Taken(st, n);
      && st'.accepted == st.accepted && st'.maxClientId == st.maxClientId && st'.waiting == st.waiting
      && st'.bound == st.bound && st'.dialing == st.dialing && st'.done == st.done && st'.lost == st.lost
      && st'.channel == st.channel[n := st.channel[n][1..]]
      && st'.clients == st.clients[n := st.clients[n] + (if TakesClient(st, n) then {st.channel[n][0].id} else {})]
      && (TakesClient(st, n) ==> st'.slots == st.slots && st'.links == st.links)
      && n in st'.slots && st'.slots == st.slots[n := st'.slots[n]]
      && st'.slots[n].Keys == st.slots[n].Keys + TakenPeer(st, n)
      && Shape(cfg, st')
  {
    hide Complete, HasRoom, Listening;
    if !TakesClient(st, n) {
      assert st.clients[n] + {} == st.clients[n];
    }
  }

  lemma AfterArrivalEffect(cfg: map<NodeId, nat>, st: State, n: NodeId)
    requires Shape(cfg, st) && n in cfg && n !in st.done
    ensures var st' := AfterArrival(cfg, st, n);
      && st'.accepted == st.accepted && st'.maxClientId == st.maxClientId && st'.waiting == st.waiting
      && st'.bound == st.bound && st'.clients == st.clients && st'.slots == st.slots
      && st'.links == st.links && st'.dialing == st.dialing
      && n in st'.channel && |st'.channel[n]| <= |st.channel[n]| && st'.channel == st.channel[n := st'.channel[n]]
      && st.done <= st'.done <= st.done + {n}
      && (n in st'.done <==> Complete(cfg.Keys, n, st.slots[n], st.clients[n], cfg[n]))
      && Shape(cfg, st')
  {
    hide Complete;
  }

  /** Taking an arrival at node `n` changes nothing for clients still on their way there, or at other nodes. */
  lemma TakeEffect(cfg: map<NodeId, nat>, st: State, n: NodeId)
    requires Enabled(cfg, st, Take(n))
    ensures var st' := Do(cfg, st, Take(n));
      && st'.accepted == st.accepted && st'.maxClientId == st.maxClientId && st'.waiting == st.waiting
      && st'.bound == st.bound && n in st'.channel && |st'.channel[n]| < |st.channel[n]|
      && st'.channel == st.channel[n := st'.channel[n]]
      && st'.clients == st.clients[n := st.clients[n] + (if TakesClient(st, n) then {st.channel[n][0].id} else {})]
      && (TakesClient(st, n) ==> st'.slots == st.slots)
      && n in st'.slots && st'.slots == st.slots[n := st'.slots[n]]
      && st'.slots[n].Keys == st.slots[n].Keys + TakenPeer(st, n)
      && st.done <= st'.done <= st.done + {n}
      && (n in st'.done <==> Complete(cfg.Keys, n, st'.slots[n], st'.clients[n], cfg[n]))
      && Shape(cfg, st')
  {
    hide Complete, HasRoom, Listening, Taken, TakesClient, TakenPeer, AfterArrival;
    TakenEffect(cfg, st, n);
    AfterArrivalEffect(cfg, Taken(st, n), n);
  }

  // ---------------------------------------------------------------- how much is left to do

  function SideLeft(phase: nat): nat {
    if phase <= 3 then 3 - phase else 0
  }

  function LinksLeft(links: seq<Link>): nat {
    if |links| == 0 then 0
    else
      var k := links[|links| - 1];
      LinksLeft(links[..|links| - 1]) + SideLeft(k.dial) + SideLeft(k.acc)
  }

  /** The connection steps still to come: seven for a pair not yet connected, then one for each phase of each
      side of its link, and one for each listener not yet bound. */
  function Remaining(cfg: map<NodeId, nat>, st: State): nat {
    7 * |st.dialing| + LinksLeft(st.links) + |cfg.Keys - st.bound|
  }

  lemma {:induction false} LeftAfterMove(links: seq<Link>, l: nat, k: Link)
    requires l < |links|
    ensures LinksLeft(links[l := k]) + SideLeft(links[l].dial) + SideLeft(links[l].acc) ==
      LinksLeft(links) + SideLeft(k.dial) + SideLeft(k.acc)
  {
    var n := |links| - 1;
    if l < n {
      LeftAfterMove(links[..n], l, k);
      assert links[l := k][..n] == links[..n][l := k];
    } else {
      assert links[l := k][..n] == links[..n];
    }
  }

  lemma MoveCountsDown(cfg: map<NodeId, nat>, st: State, st': State, l: nat, k: Link)
    requires l < |st.links| && st'.links == st.links[l := k] && st'.dialing == st.dialing && st'.bound == st.bound
    requires SideLeft(k.dial) + SideLeft(k.acc) + 1 == SideLeft(st.links[l].dial) + SideLeft(st.links[l].acc)
    ensures Remaining(cfg, st) == Remaining(cfg, st') + 1
  {
    LeftAfterMove(st.links, l, k);
  }

  lemma SameLeft(cfg: map<NodeId, nat>, st: State, st': State)
    requires st'.links == st.links && st'.dialing == st.dialing && st'.bound == st.bound
    ensures Remaining(cfg, st') == Remaining(cfg, st)
  {
  }

  lemma LinkStepCountsDown(cfg: map<NodeId, nat>, st: State, step: Step)
    requires Enabled(cfg, st, step)
    requires step.SendHandshake? || step.QueueOwn? || step.Accept? || step.ReadHandshake?
    ensures Remaining(cfg, st) == Remaining(cfg, Do(cfg, st, step)) + 1
  {
    hide Complete, Remaining, Listening, HasRoom;
    var l, st' := step.l, Do(cfg, st, step);
    MoveCountsDown(cfg, st, st', l, st'.links[l]);
  }

  lemma TakeCountsDown(cfg: map<NodeId, nat>, st: State, n: NodeId)
    requires Inv(cfg, st) && Enabled(cfg, st, Take(n))
    ensures Remaining(cfg, st) == Remaining(cfg, Do(cfg, st, Take(n))) + (if TakesClient(st, n) then 0 else 1)
  {
    hide Complete, SlotsOk, DoneOk, AllClientsOk, QueuesOk, LinksOk, Remaining, AfterArrival;
    TakenEffect(cfg, st, n);
    AfterArrivalEffect(cfg, Taken(st, n), n);
    if TakesClient(st, n) {
      SameLeft(cfg, st, Do(cfg, st, Take(n)));
    }
    if !TakesClient(st, n) {
      var l, st' := st.channel[n][0].l, Do(cfg, st, Take(n));
      FirstIsQueued(st, n);
      LinkIsOk(cfg.Keys, st.dialing, st.bound, st.links, l);
      MoveCountsDown(cfg, st, st', l, SideMoved(st.links[l], n, 3));
    }
  }

  lemma BindCountsDown(cfg: map<NodeId, nat>, st: State, n: NodeId)
    requires Enabled(cfg, st, Bind(n))
    ensures Remaining(cfg, st) == Remaining(cfg, Do(cfg, st, Bind(n))) + 1
  {
    hide Complete, LinksLeft;
    assert cfg.Keys - st.bound == (cfg.Keys - (st.bound + {n})) + {n};
  }

  lemma ConnectCountsDown(cfg: map<NodeId, nat>, st: State, hi: NodeId, lo: NodeId)
    requires Enabled(cfg, st, Connect(hi, lo))
    ensures Remaining(cfg, st) == Remaining(cfg, Do(cfg, st, Connect(hi, lo))) + 1
  {
    hide Complete, LinksLeft;
    assert st.dialing == (st.dialing - {(hi, lo)}) + {(hi, lo)};
    NewLinkLeft(st.links, hi, lo);
  }

  lemma ClientsDelayNothing(cfg: map<NodeId, nat>, st: State, step: Step)
    requires Enabled(cfg, st, step)
    requires step.ClientConnects? || step.ClientRegisters? || step.ClientQueues? || step.ClientLost?
    ensures Remaining(cfg, st) == Remaining(cfg, Do(cfg, st, step))
  {
    hide Complete, LinksLeft, CanTake, HasRoom, Listening;
    var st' := Do(cfg, st, step);
    assert st'.dialing == st.dialing && st'.links == st.links && st'.bound == st.bound;
  }

  lemma NewLinkLeft(links: seq<Link>, hi: NodeId, lo: NodeId)
    ensures LinksLeft(links + [Link(hi, lo, 0, 0)]) == LinksLeft(links) + 6
  {
    assert (links + [Link(hi, lo, 0, 0)])[..|links|] == links;
  }

  /** Every connection step brings start-up nearer to its end by exactly one; clients do not delay it. */
  lemma StepsCountDown(cfg: map<NodeId, nat>, st: State, step: Step)
    requires Inv(cfg, st) && Enabled(cfg, st, step)
    ensures Remaining(cfg, st) == Remaining(cfg, Do(cfg, st, step)) + (if IsClientStep(st, step) then 0 else 1)
  {
    hide Remaining, Do, Enabled, Inv;
    match step {
      case Bind(n) => BindCountsDown(cfg, st, n);
      case Connect(hi, lo) => ConnectCountsDown(cfg, st, hi, lo);
      case Take(n) => TakeCountsDown(cfg, st, n);
      case SendHandshake(_) => LinkStepCountsDown(cfg, st, step);
      case QueueOwn(_) => LinkStepCountsDown(cfg, st, step);
      case Accept(_) => LinkStepCountsDown(cfg, st, step);
      case ReadHandshake(_) => LinkStepCountsDown(cfg, st, step);
      case _ => ClientsDelayNothing(cfg, st, step);
    }
  }

  /** How many of the first `i` steps of a run are connection steps. */
  function ConnectionSteps(run: seq<State>, steps: seq<Step>, i: nat): nat
    requires i <= |steps| <= |run|
  {
    if i == 0 then 0
    else ConnectionSteps(run, steps, i - 1) + (if IsClientStep(run[i - 1], steps[i - 1]) then 0 else 1)
  }

  /** No run has more connection steps than seven per pair of nodes and one per node. */
  lemma {:induction false} ConnectionStepsAreBounded(cfg: map<NodeId, nat>, run: seq<State>, steps: seq<Step>, i: nat)
    requires IsRun(cfg, run, steps) && i <= |steps|
    ensures ConnectionSteps(run, steps, i) + Remaining(cfg, run[i]) == 7 * |DialTasks(cfg.Keys)| + |cfg|
  {
    hide Inv, Do, Enabled, Init, Remaining;
    if i == 0 {
      InitRemaining(cfg, run[0]);
    } else {
      ConnectionStepsAreBounded(cfg, run, steps, i - 1);
      RunInv(cfg, run, steps, i - 1);
      StepsCountDown(cfg, run[i - 1], steps[i - 1]);
    }
  }

  lemma InitRemaining(cfg: map<NodeId, nat>, st: State)
    requires Init(cfg, st)
    ensures Remaining(cfg, st) == 7 * |DialTasks(cfg.Keys)| + |cfg|
  {
    assert cfg.Keys - {} == cfg.Keys;
    assert |cfg.Keys| == |cfg|;
  }

  /** How many of the first `i` steps take a client off the channel of node `n`. */
  function ClientTakes(run: seq<State>, steps: seq<Step>, i: nat, n: NodeId): nat
    requires i <= |steps| <= |run|
  {
    if i == 0 then 0
    else
      ClientTakes(run, steps, i - 1, n) + (if steps[i - 1] == Take(n) && TakesClient(run[i - 1], n) then 1 else 0)
  }

  /** Nor does a main loop take more clients than have registered. */
  lemma {:induction false} ClientTakesAreBounded(cfg: map<NodeId, nat>, run: seq<State>, steps: seq<Step>, i: nat,
                                                 n: NodeId)
    requires IsRun(cfg, run, steps) && i <= |steps| && n in cfg
    ensures n in run[i].clients && n in run[i].maxClientId
    ensures ClientTakes(run, steps, i, n) == |run[i].clients[n]| <= run[i].maxClientId[n]
  {
    hide Inv, Do, Enabled, TakesClient;
    RunInv(cfg, run, steps, i);
    NoMoreThanRegistered(cfg, run[i], n);
    if i > 0 {
      ClientTakesAreBounded(cfg, run, steps, i - 1, n);
      RunInv(cfg, run, steps, i - 1);
      TakeCountsClients(cfg, run[i - 1], steps[i - 1], n);
    }
  }

  /** No channel ever holds more than 30 arrivals. */
  lemma ChannelsAreBounded(cfg: map<NodeId, nat>, run: seq<State>, steps: seq<Step>, i: nat, n: NodeId)
    requires IsRun(cfg, run, steps) && i < |run| && n in cfg
    ensures n in run[i].channel && |run[i].channel[n]| <= 30
  {
    hide IsRun, LinksOk, SlotsOk, DoneOk, AllClientsOk;
    RunInv(cfg, run, steps, i);
    assert QueueOk(n, run[i].links, run[i].channel[n]);
  }

  lemma NoMoreThanRegistered(cfg: map<NodeId, nat>, st: State, n: NodeId)
    requires Inv(cfg, st) && n in cfg
    ensures n in st.clients && n in st.maxClientId && |st.clients[n]| <= st.maxClientId[n]
  {
    hide LinksOk, SlotsOk, QueuesOk, DoneOk, AllClientsOk;
    NodesClientsOk(st, n);
    SubsetSize(st.clients[n], UpTo(st.maxClientId[n]));
  }

  lemma OthersKeepClients(cfg: map<NodeId, nat>, st: State, step: Step)
    requires Enabled(cfg, st, step) && !step.Take?
    ensures Do(cfg, st, step).clients == st.clients
  {
    hide Complete, HasRoom, Listening, CanTake;
  }

  lemma OthersFillNoSlot(cfg: map<NodeId, nat>, st: State, step: Step)
    requires Enabled(cfg, st, step) && !step.Take?
    ensures Do(cfg, st, step).slots == st.slots
  {
    hide Complete, HasRoom, Listening, CanTake;
  }

  lemma OthersEndNoLoop(cfg: map<NodeId, nat>, st: State, step: Step)
    requires Enabled(cfg, st, step) && !step.Take?
    ensures Do(cfg, st, step).done == st.done
  {
    hide Complete, HasRoom, Listening, CanTake;
  }

  lemma TakeCountsClients(cfg: map<NodeId, nat>, st: State, step: Step, n: NodeId)
    requires Inv(cfg, st) && Enabled(cfg, st, step) && n in st.clients
    ensures n in Do(cfg, st, step).clients
    ensures |Do(cfg, st, step).clients[n]| == |st.clients[n]| + if step == Take(n) && TakesClient(st, n) then 1 else 0
  {
    hide Inv, Do, Complete, HasRoom, Listening;
    if step.Take? {
      TakeEffect(cfg, st, step.n);
      if TakesClient(st, step.n) {
        TakenClientKeepsInv(cfg, st, step.n);
      }
    } else {
      OthersKeepClients(cfg, st, step);
    }
  }

  // ---------------------------------------------------------------- progress

  ghost predicate MissingPeer(cfg: map<NodeId, nat>, st: State, n: NodeId, p: NodeId) {
    n in cfg && p in cfg && n != p && n in st.slots && p !in st.slots[n]
  }

  /** While any node misses any peer, a connection step is enabled, or the main loop of a node that is not done
      can make room in its channel. By the two bounds above neither can go on for ever. */
  lemma NeverStuck(cfg: map<NodeId, nat>, run: seq<State>, steps: seq<Step>, i: nat, n: NodeId, p: NodeId)
    returns (step: Step)
    requires IsRun(cfg, run, steps) && i < |run| && MissingPeer(cfg, run[i], n, p)
    ensures Enabled(cfg, run[i], step) && (step.Take? || !IsClientStep(run[i], step))
  {
    hide IsRun, Inv;
    RunInv(cfg, run, steps, i);
    step := NextStep(cfg, run[i], n, p);
  }

  lemma MissingIsNotDone(cfg: map<NodeId, nat>, st: State, n: NodeId, p: NodeId)
    requires Inv(cfg, st) && MissingPeer(cfg, st, n, p)
    ensures n !in st.done
  {
    hide LinksOk, SlotsOk, QueuesOk, AllClientsOk;
  }

  /** The state of the one link between two nodes, or that it is still to come. */
  lemma PairState(cfg: map<NodeId, nat>, st: State, hi: NodeId, lo: NodeId) returns (l: nat)
    requires Inv(cfg, st) && IsPair(cfg.Keys, hi, lo)
    ensures (hi, lo) in st.dialing ==> lo !in st.slots[hi] && hi !in st.slots[lo]
    ensures (hi, lo) !in st.dialing ==>
      && l < |st.links| && st.links[l].dialer == hi && st.links[l].listener == lo
      && LinkOk(cfg.Keys, st.dialing, st.bound, st.links[l])
      && SideOk(st.links[l].dial, l, st.slots[hi], lo) && SideOk(st.links[l].acc, l, st.slots[lo], hi)
  {
    hide DoneOk, AllClientsOk, QueuesOk;
    l := 0;
    if (hi, lo) !in st.dialing {
      assert HasLink(st.links, hi, lo);
      l :| 0 <= l < |st.links| && st.links[l].dialer == hi && st.links[l].listener == lo;
    }
  }

  /** A main loop that is not done can take something from a channel that is full or holds the end of a link. */
  lemma MainLoopCanTake(cfg: map<NodeId, nat>, st: State, n: NodeId, l: nat)
    requires Inv(cfg, st) && n in cfg && n !in st.done && (!HasRoom(st, n) || IsQueued(st.links, n, l))
    ensures CanTake(st, n)
  {
    hide LinksOk, SlotsOk, DoneOk, AllClientsOk;
    var q := st.channel[n];
    assert QueueOk(n, st.links, q);
    if IsQueued(st.links, n, l) {
      assert FromPeer(l) in q;
    }
    if q[0].FromPeer? {
      FirstIsQueued(st, n);
    }
  }

  lemma NextStep(cfg: map<NodeId, nat>, st: State, n: NodeId, p: NodeId) returns (step: Step)
    requires Inv(cfg, st) && MissingPeer(cfg, st, n, p)
    ensures Enabled(cfg, st, step) && (step.Take? || !IsClientStep(st, step))
  {
    hide LinksOk, SlotsOk, DoneOk, AllClientsOk, QueuesOk, Complete, CanTake, HasRoom;
    var hi, lo := if n > p then n else p, if n > p then p else n;
    var l := PairState(cfg, st, hi, lo);
    MissingIsNotDone(cfg, st, n, p);
    if (hi, lo) in st.dialing {
      MissingIsNotDone(cfg, st, lo, hi);
      step := if lo in st.bound then Connect(hi, lo) else Bind(lo);
    } else {
      var k := st.links[l];
      if k.dial == 0 {
        step := SendHandshake(l);
      } else if n == lo && k.acc == 0 {
        step := Accept(l);
      } else if IsQueued(st.links, n, l) || !HasRoom(st, n) {
        MainLoopCanTake(cfg, st, n, l);
        step := Take(n);
      } else {
        step := if n == hi then QueueOwn(l) else ReadHandshake(l);
      }
    }
  }

  /** Once no node misses a peer, every pair of nodes has exactly one link, dialled by the higher id, and both
      nodes use it for each other. */
  lemma FullMesh(cfg: map<NodeId, nat>, run: seq<State>, steps: seq<Step>, i: nat, hi: NodeId, lo: NodeId)
    returns (l: nat)
    requires IsRun(cfg, run, steps) && i < |run| && IsPair(cfg.Keys, hi, lo)
    requires forall n, p :: !MissingPeer(cfg, run[i], n, p)
    ensures l < |run[i].links| && run[i].links[l] == Link(hi, lo, 3, 3)
    ensures hi in run[i].slots && lo in run[i].slots[hi] && run[i].slots[hi][lo] == l
    ensures lo in run[i].slots && hi in run[i].slots[lo] && run[i].slots[lo][hi] == l
    ensures var links := run[i].links;
      forall m :: 0 <= m < |links| && {links[m].dialer, links[m].listener} == {hi, lo} ==> m == l
  {
    hide IsRun, LinksOk, SlotsOk, DoneOk, AllClientsOk, QueuesOk, Complete;
    RunInv(cfg, run, steps, i);
    var st := run[i];
    l := PairState(cfg, st, hi, lo);
    assert !MissingPeer(cfg, st, hi, lo) && !MissingPeer(cfg, st, lo, hi);
    forall m: nat | m < |st.links| && {st.links[m].dialer, st.links[m].listener} == {hi, lo}
      ensures m == l
    {
      OneLinkPerPair(cfg.Keys, st.dialing, st.bound, st.links, l, m);
    }
  }

  lemma OneLinkPerPair(nodes: set<NodeId>, dialing: set<(NodeId, NodeId)>, bound: set<NodeId>, links: seq<Link>,
                       l: nat, m: nat)
    requires LinksOk(nodes, dialing, bound, links) && l < |links| && m < |links|
    requires {links[l].dialer, links[l].listener} == {links[m].dialer, links[m].listener}
    ensures l == m
  {
    assert LinkOk(nodes, dialing, bound, links[l]) && LinkOk(nodes, dialing, bound, links[m]);
    assert links[m].dialer in {links[l].dialer, links[l].listener};
    assert links[l].dialer in {links[m].dialer, links[m].listener};
  }

  /** No task that connects to a peer finds its main loop gone, and no peer is dropped with the channel: a link
      still short of a slot belongs to a node that is not done. */
  lemma NoPeerConnectionIsLost(cfg: map<NodeId, nat>, run: seq<State>, steps: seq<Step>, i: nat, l: nat)
    requires IsRun(cfg, run, steps) && i < |run| && l < |run[i].links|
    ensures run[i].links[l].dial < 3 ==> run[i].links[l].dialer !in run[i].done
    ensures run[i].links[l].acc < 3 ==> run[i].links[l].listener !in run[i].done
  {
    hide IsRun, QueuesOk, AllClientsOk;
    RunInv(cfg, run, steps, i);
    var st := run[i];
    var k := st.links[l];
    assert LinkOk(cfg.Keys, st.dialing, st.bound, k);
    assert SideOk(k.dial, l, st.slots[k.dialer], k.listener) && SideOk(k.acc, l, st.slots[k.listener], k.dialer);
  }

  // ---------------------------------------------------------------- clients

  /** Client ids are handed out as 1, 2, ... without repetition, and a node is done only with all its peers and
      enough clients; if no more clients registered than it waits for, it ends with exactly the ids 1..n
      connected and loses none. Any other registered client is lost, or will find the main loop gone. */
  lemma DoneMeansConnected(cfg: map<NodeId, nat>, run: seq<State>, steps: seq<Step>, i: nat, n: NodeId)
    requires IsRun(cfg, run, steps) && i < |run| && n in run[i].done
    ensures n in cfg && n in run[i].clients && n in run[i].maxClientId && n in run[i].waiting && n in run[i].lost
    ensures forall p :: !MissingPeer(cfg, run[i], n, p)
    ensures run[i].clients[n] <= UpTo(run[i].maxClientId[n]) && |run[i].clients[n]| >= cfg[n]
    ensures run[i].maxClientId[n] <= cfg[n] ==>
      run[i].clients[n] == UpTo(cfg[n]) && run[i].waiting[n] == {} && run[i].lost[n] == {}
    ensures run[i].waiting[n] + run[i].lost[n] == UpTo(run[i].maxClientId[n]) - run[i].clients[n]
    ensures forall id :: id in run[i].waiting[n] ==> Enabled(cfg, run[i], ClientLost(n, id))
  {
    hide IsRun, Inv, Complete, ClientsOk;
    RunInv(cfg, run, steps, i);
    var st := run[i];
    DoneNode(cfg, st, n);
    CompleteMissesNobody(cfg, st, n);
    DoneClients(st.maxClientId[n], st.waiting[n], st.clients[n], st.lost[n], cfg[n]);
    forall id | id in st.waiting[n]
      ensures Enabled(cfg, st, ClientLost(n, id))
    {
    }
  }

  lemma DoneNode(cfg: map<NodeId, nat>, st: State, n: NodeId)
    requires Inv(cfg, st) && n in st.done
    ensures Shape(cfg, st) && n in cfg && n in st.slots && n in st.clients
    ensures n in st.maxClientId && n in st.waiting && n in st.lost
    ensures Complete(cfg.Keys, n, st.slots[n], st.clients[n], cfg[n])
    ensures ClientsOk(st.maxClientId[n], st.waiting[n], {}, st.clients[n], st.lost[n])
  {
    hide LinksOk, SlotsOk, QueuesOk, AllClientsOk, ClientsOk, Complete;
    NodesClientsOk(st, n);
    assert Ids(st.channel[n]) == {};
  }

  lemma CompleteMissesNobody(cfg: map<NodeId, nat>, st: State, n: NodeId)
    requires n in cfg && n in st.slots && n in st.clients && Complete(cfg.Keys, n, st.slots[n], st.clients[n], cfg[n])
    ensures |st.clients[n]| >= cfg[n] && forall p :: !MissingPeer(cfg, st, n, p)
  {
  }

  lemma DoneClients(max: nat, waiting: set<ClientId>, clients: set<ClientId>, lost: set<ClientId>, need: nat)
    requires ClientsOk(max, waiting, {}, clients, lost) && |clients| >= need
    ensures clients <= UpTo(max) && waiting + lost == UpTo(max) - clients
    ensures max <= need ==> clients == UpTo(need) && waiting == {} && lost == {}
  {
    if max <= need {
      assert UpTo(max) <= UpTo(need);
      SubsetSize(clients, UpTo(need));
    }
  }

  /** A client not connected when its node is done never is. */
  lemma {:induction false} LostForGood(cfg: map<NodeId, nat>, run: seq<State>, steps: seq<Step>, i: nat, j: nat,
                                       n: NodeId)
    requires IsRun(cfg, run, steps) && i <= j < |run| && n in run[i].done
    ensures n in run[j].done && n in run[i].clients && n in run[j].clients && run[j].clients[n] == run[i].clients[n]
    decreases j - i
  {
    hide Do, Enabled, Inv, Init;
    if i == j {
      RunInv(cfg, run, steps, i);
      DoneIsNode(cfg, run[i], n);
    } else {
      LostForGood(cfg, run, steps, i, j - 1, n);
      DoneStays(cfg, run[j - 1], steps[j - 1], n);
    }
  }

  lemma DoneIsNode(cfg: map<NodeId, nat>, st: State, n: NodeId)
    requires Inv(cfg, st) && n in st.done
    ensures n in cfg && n in st.clients
  {
    hide LinksOk, SlotsOk, QueuesOk, AllClientsOk;
  }

  lemma DoneStays(cfg: map<NodeId, nat>, st: State, step: Step, n: NodeId)
    requires Enabled(cfg, st, step) && n in st.done && n in st.clients
    ensures var st' := Do(cfg, st, step); n in st'.done && n in st'.clients && st'.clients[n] == st.clients[n]
  {
    hide Complete, HasRoom, Listening, AfterArrival, Taken, TakesClient;
    if step.Take? {
      TakeEffect(cfg, st, step.n);
    }
  }
}
