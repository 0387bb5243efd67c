/** Whatever the server object does in one turn of its loops is a sequence of steps of the cluster. */
module ServerSteps {
  import opened KV
  import opened Replicas
  import opened Networks
  import opened Servers
  import opened Clients
  import opened Cluster
  import opened ClusterTheorems

  /** The state after a sequence of steps, if each is enabled in its turn. */
  function DoAll(cfg: Config, st: State, steps: seq<Step>): Option<State> {
    if |steps| == 0 then Some(st)
    else
      var before, last := DoAll(cfg, st, steps[..|steps| - 1]), steps[|steps| - 1];
      if before.Some? && Enabled(cfg, before.value, last) then Some(Do(cfg, before.value, last)) else None
  }

  lemma DoOneMore(cfg: Config, st: State, steps: seq<Step>, step: Step)
    ensures DoAll(cfg, st, steps + [step]) ==
      var before := DoAll(cfg, st, steps);
      if before.Some? && Enabled(cfg, before.value, step) then Some(Do(cfg, before.value, step)) else None
  {
    assert (steps + [step])[..|steps|] == steps;
  }

  /** Such a sequence continues any run, so every theorem about runs holds of the state it leads to. */
  lemma {:induction false} RunGoesOn(cfg: Config, run: seq<State>, steps: seq<Step>, more: seq<Step>)
    returns (run': seq<State>)
    requires IsRun(cfg, run, steps) && DoAll(cfg, run[|steps|], more).Some?
    ensures IsRun(cfg, run', steps + more) && run <= run'
    ensures run'[|steps| + |more|] == DoAll(cfg, run[|steps|], more).value
  {
    hide Enabled, Do, Init;
    if |more| == 0 {
      run' := run;
      assert steps + more == steps;
    } else {
      var n := |more| - 1;
      run' := RunGoesOn(cfg, run, steps, more[..n]);
      var step := more[n];
      assert steps + more == (steps + more[..n]) + [step];
      run' := OneMore(cfg, run', steps + more[..n], step);
    }
  }

  lemma OneMore(cfg: Config, run: seq<State>, steps: seq<Step>, step: Step) returns (run': seq<State>)
    requires IsRun(cfg, run, steps) && Enabled(cfg, run[|steps|], step)
    ensures IsRun(cfg, run', steps + [step]) && run <= run'
    ensures run'[|steps| + 1] == Do(cfg, run[|steps|], step)
  {
    hide Enabled, Do, Init;
    run' := run + [Do(cfg, run[|steps|], step)];
    var steps' := steps + [step];
    forall i | 0 <= i < |steps'|
      ensures Enabled(cfg, run'[i], steps'[i]) && run'[i + 1] == Do(cfg, run'[i], steps'[i])
    {
      if i < |steps| {
        assert steps'[i] == steps[i] && run'[i] == run[i] && run'[i + 1] == run[i + 1];
      }
    }
  }

  // ---------------------------------------------------------------- batches of cluster messages

  /** What a batch teaches its receiver. */
  function LearnedFrom(ms: seq<(NodeId, ClusterMessage)>): seq<Command> {
    if |ms| == 0 then []
    else
      var m := ms[|ms| - 1].1;
      LearnedFrom(ms[..|ms| - 1]) + (if m.OmniPaxosMessage? then m.learned else [])
  }

  /** The steps for one message that reaches server `n` when it knows `known` entries. */
  function MessageSteps(n: NodeId, known: nat, m: ClusterMessage): seq<Step> {
    match m
    case OmniPaxosMessage(learned) => [Learn(n, known + |learned|), ApplyDecided(n)]
    case LeaderStartSignal(_) => [FollowerStart(n)]
  }

  function BatchSteps(n: NodeId, known: nat, ms: seq<(NodeId, ClusterMessage)>): seq<Step> {
    if |ms| == 0 then []
    else
      var init := ms[..|ms| - 1];
      BatchSteps(n, known, init) + MessageSteps(n, known + |LearnedFrom(init)|, ms[|ms| - 1].1)
  }

  /** A message changes its receiver as the server object does, and is taken off the leader's link if it is the
      start signal. */
  function AfterMessage(cfg: Config, st: State, n: NodeId, m: ClusterMessage): State
    requires Shape(cfg, st) && n in st.servers && (m.LeaderStartSignal? ==> st.inbox[n] != [])
  {
    var st' := st.(servers := st.servers[n := OnClusterMessage(n, cfg.numClients[n], st.servers[n], m)]);
    if m.OmniPaxosMessage? then st'
    else st'.(inbox := st.inbox[n := st.inbox[n][1..]], announced := st.announced + {n})
  }

  /** The batch changes this server as its object does, takes its start signals off the leader's link, and
      changes nothing else. */
  function AfterBatch(cfg: Config, st: State, n: NodeId, ms: seq<(NodeId, ClusterMessage)>): State
    requires Shape(cfg, st) && n in st.servers && StartTimes(ms) <= st.inbox[n]
  {
    var times := StartTimes(ms);
    st.(servers := st.servers[n := OnClusterMessages(n, cfg.numClients[n], st.servers[n], ms)],
        inbox := st.inbox[n := st.inbox[n][|times|..]],
        announced := if times == [] then st.announced else st.announced + {n})
  }

  lemma CatchUpKeepsDecided(me: NodeId, s: Server)
    ensures CatchUp(me, s).decided == s.decided
  {
  }

  lemma {:induction false} BatchDecided(me: NodeId, numClients: nat, s: Server, ms: seq<(NodeId, ClusterMessage)>)
    ensures OnClusterMessages(me, numClients, s, ms).decided == s.decided + LearnedFrom(ms)
  {
    hide CatchUp, StartSignals;
    if |ms| > 0 {
      var n := |ms| - 1;
      BatchDecided(me, numClients, s, ms[..n]);
      if ms[n].1.OmniPaxosMessage? {
        CatchUpKeepsDecided(me, Learns(OnClusterMessages(me, numClients, s, ms[..n]), ms[n].1.learned));
      }
    }
  }

  /** What the server knows after an event: all it knew, and all that the calls it made taught it. Start-up calls
      Omnipaxos at a tick only on the designated leader, and not once it is established. */
  lemma EventTeaches(me: NodeId, phase: LoopPhase, numClients: nat, s: Server, e: Event)
    ensures OnEvent(me, phase, numClients, s, e).decided == s.decided +
      match e
      case Tick(_, current, learned) =>
        if phase == MainLoop || (phase == Startup(me) && current != Some((me, true))) then learned else []
      case FromCluster(batch) => LearnedFrom(batch)
      case FromClients(requests) => LearnedBy(requests)
  {
    hide OnClusterMessages, LearnedFrom, LearnedBy, StartSignals;
    if e.FromCluster? {
      BatchDecided(me, numClients, s, e.batch);
    }
  }

  lemma MessageIsSteps(cfg: Config, st: State, n: NodeId, m: ClusterMessage)
    requires Shape(cfg, st) && n in st.servers
    requires m.OmniPaxosMessage? ==> st.servers[n].decided + m.learned <= st.log
    requires m.LeaderStartSignal? ==> st.inbox[n] != [] && m.time == st.inbox[n][0]
    ensures m.OmniPaxosMessage? ==>
      var learn := Learn(n, |st.servers[n].decided| + |m.learned|);
      && Enabled(cfg, st, learn) && Enabled(cfg, Do(cfg, st, learn), ApplyDecided(n))
      && Do(cfg, Do(cfg, st, learn), ApplyDecided(n)) == AfterMessage(cfg, st, n, m)
    ensures m.LeaderStartSignal? ==>
      Enabled(cfg, st, FollowerStart(n)) && Do(cfg, st, FollowerStart(n)) == AfterMessage(cfg, st, n, m)
  {
    hide StreamTo, StartSignals, ExecuteAll, CatchUp;
    if m.OmniPaxosMessage? {
      LearningIsStep(cfg, st, n, m.learned);
    }
  }

  /** Learning a decided entry, from a message or from any other call of Omnipaxos, is a step. */
  lemma LearningIsStep(cfg: Config, st: State, n: NodeId, learned: seq<Command>)
    requires Shape(cfg, st) && n in st.servers && st.servers[n].decided + learned <= st.log
    ensures var learn := Learn(n, |st.servers[n].decided| + |learned|);
      && Enabled(cfg, st, learn)
      && Do(cfg, st, learn) == st.(servers := st.servers[n := Learns(st.servers[n], learned)])
  {
    hide StreamTo;
    assert st.log[..|st.servers[n].decided| + |learned|] == st.servers[n].decided + learned;
  }

  lemma BatchStepsGrow(n: NodeId, known: nat, init: seq<(NodeId, ClusterMessage)>, m: (NodeId, ClusterMessage))
    ensures BatchSteps(n, known, init + [m]) ==
      BatchSteps(n, known, init) + MessageSteps(n, known + |LearnedFrom(init)|, m.1)
  {
    hide LearnedFrom, MessageSteps;
    assert (init + [m])[..|init|] == init;
  }

  lemma LearnedFromGrows(init: seq<(NodeId, ClusterMessage)>, m: (NodeId, ClusterMessage))
    ensures LearnedFrom(init + [m]) == LearnedFrom(init) + (if m.1.OmniPaxosMessage? then m.1.learned else [])
  {
    assert (init + [m])[..|init|] == init;
  }

  lemma StartTimesGrow(init: seq<(NodeId, ClusterMessage)>, m: (NodeId, ClusterMessage))
    ensures StartTimes(init + [m]) == StartTimes(init) + (if m.1.LeaderStartSignal? then [m.1.time] else [])
  {
    assert (init + [m])[..|init|] == init;
  }

  lemma ServerMovesOn(me: NodeId, numClients: nat, s: Server, init: seq<(NodeId, ClusterMessage)>, m: (NodeId,
                      ClusterMessage))
    ensures OnClusterMessages(me, numClients, s, init + [m]) ==
      OnClusterMessage(me, numClients, OnClusterMessages(me, numClients, s, init), m.1)
  {
    hide OnClusterMessage;
    assert (init + [m])[..|init|] == init;
  }

  /** The state after all messages of a batch but the last is one in which the last can be handled, and that
      leads to the state after the batch. */
  lemma LastOfBatchIsPossible(cfg: Config, st: State, n: NodeId, init: seq<(NodeId, ClusterMessage)>, m: (NodeId,
                              ClusterMessage))
    requires Shape(cfg, st) && n in st.servers
    requires st.servers[n].decided + LearnedFrom(init + [m]) <= st.log && StartTimes(init + [m]) <= st.inbox[n]
    ensures StartTimes(init) <= st.inbox[n] && st.servers[n].decided + LearnedFrom(init) <= st.log
    ensures var mid := AfterBatch(cfg, st, n, init);
      && Shape(cfg, mid) && n in mid.servers && n in mid.inbox
      && mid.servers[n].decided == st.servers[n].decided + LearnedFrom(init)
      && (m.1.OmniPaxosMessage? ==> mid.servers[n].decided + m.1.learned <= mid.log)
      && (m.1.LeaderStartSignal? ==> mid.inbox[n] != [] && m.1.time == mid.inbox[n][0])
  {
    hide OnClusterMessages, LearnedFrom, StartTimes;
    var decided := st.servers[n].decided;
    LearnedFromGrows(init, m);
    StartTimesGrow(init, m);
    BatchDecided(n, cfg.numClients[n], st.servers[n], init);
    if m.1.OmniPaxosMessage? {
      assert decided + (LearnedFrom(init) + m.1.learned) == decided + LearnedFrom(init) + m.1.learned;
    }
  }

  lemma LastOfBatchLeadsOn(cfg: Config, st: State, n: NodeId, init: seq<(NodeId, ClusterMessage)>, m: (NodeId,
                           ClusterMessage))
    requires Shape(cfg, st) && n in st.servers
    requires StartTimes(init) <= st.inbox[n] && StartTimes(init + [m]) <= st.inbox[n]
    requires var mid := AfterBatch(cfg, st, n, init);
      Shape(cfg, mid) && n in mid.servers && (m.1.LeaderStartSignal? ==> mid.inbox[n] != [])
    ensures AfterMessage(cfg, AfterBatch(cfg, st, n, init), n, m.1) == AfterBatch(cfg, st, n, init + [m])
  {
    hide OnClusterMessage, OnClusterMessages, StartTimes;
    StartTimesGrow(init, m);
    ServerMovesOn(n, cfg.numClients[n], st.servers[n], init, m);
    var mid, after := AfterBatch(cfg, st, n, init), AfterBatch(cfg, st, n, init + [m]);
    assert AfterMessage(cfg, mid, n, m.1).servers == after.servers;
    if m.1.LeaderStartSignal? {
      assert mid.inbox[n][1..] == after.inbox[n];
      assert mid.announced + {n} == after.announced;
    }
  }

  /** `handle_cluster_messages` is a sequence of steps, whatever the batch, so long as what it teaches is decided
      and its start signals are those on the leader's link. */
  lemma {:induction false} BatchIsSteps(cfg: Config, st: State, n: NodeId, ms: seq<(NodeId, ClusterMessage)>)
    requires Shape(cfg, st) && n in st.servers
    requires st.servers[n].decided + LearnedFrom(ms) <= st.log && StartTimes(ms) <= st.inbox[n]
    ensures DoAll(cfg, st, BatchSteps(n, |st.servers[n].decided|, ms)) == Some(AfterBatch(cfg, st, n, ms))
  {
    if |ms| == 0 {
      assert AfterBatch(cfg, st, n, ms) == st;
    } else {
      var init, m := ms[..|ms| - 1], ms[|ms| - 1];
      assert ms == init + [m];
      hide *;
      LastOfBatchIsPossible(cfg, st, n, init, m);
      BatchIsSteps(cfg, st, n, init);
      NextOfBatch(cfg, st, n, init, m);
    }
  }

  lemma NextOfBatch(cfg: Config, st: State, n: NodeId, init: seq<(NodeId, ClusterMessage)>, m: (NodeId, ClusterMessage))
    requires Shape(cfg, st) && n in st.servers && n in st.inbox
    requires st.servers[n].decided + LearnedFrom(init + [m]) <= st.log
    requires StartTimes(init + [m]) <= st.inbox[n] && StartTimes(init) <= st.inbox[n]
    requires DoAll(cfg, st, BatchSteps(n, |st.servers[n].decided|, init)) == Some(AfterBatch(cfg, st, n, init))
    ensures DoAll(cfg, st, BatchSteps(n, |st.servers[n].decided|, init + [m])) ==
      Some(AfterBatch(cfg, st, n, init + [m]))
  {
    hide *;
    LastOfBatchIsPossible(cfg, st, n, init, m);
    var known := |st.servers[n].decided|;
    LastMessageSteps(cfg, st, BatchSteps(n, known, init), AfterBatch(cfg, st, n, init), n, m.1);
    BatchStepsGrow(n, known, init, m);
    LastOfBatchLeadsOn(cfg, st, n, init, m);
  }

  /** One more message after the steps that led to `mid`. */
  lemma LastMessageSteps(cfg: Config, st: State, before: seq<Step>, mid: State, n: NodeId, m: ClusterMessage)
    requires DoAll(cfg, st, before) == Some(mid) && Shape(cfg, mid) && n in mid.servers
    requires m.OmniPaxosMessage? ==> mid.servers[n].decided + m.learned <= mid.log
    requires m.LeaderStartSignal? ==> mid.inbox[n] != [] && m.time == mid.inbox[n][0]
    ensures DoAll(cfg, st, before + MessageSteps(n, |mid.servers[n].decided|, m)) == Some(AfterMessage(cfg, mid, n, m))
  {
    hide Enabled, Do, OnClusterMessage, DoAll;
    MessageIsSteps(cfg, mid, n, m);
    if m.OmniPaxosMessage? {
      var learn := Learn(n, |mid.servers[n].decided| + |m.learned|);
      DoOneMore(cfg, st, before, learn);
      DoOneMore(cfg, st, before + [learn], ApplyDecided(n));
      assert before + [learn, ApplyDecided(n)] == before + [learn] + [ApplyDecided(n)];
    } else {
      DoOneMore(cfg, st, before, FollowerStart(n));
    }
  }

  // ---------------------------------------------------------------- batches of client messages

  function IngestSteps(n: NodeId, requests: seq<Request>): seq<Step> {
    if |requests| == 0 then []
    else IngestSteps(n, requests[..|requests| - 1]) + [Ingest(ClientKey(n, requests[|requests| - 1].from))]
  }

  /** How many of the messages of a batch come from client `c`. */
  function CountFrom(requests: seq<Request>, c: ClientId): nat {
    if |requests| == 0 then 0
    else CountFrom(requests[..|requests| - 1], c) + (if requests[|requests| - 1].from == c then 1 else 0)
  }

  function TakenIn(clients: map<ClientKey, Session>, n: NodeId, requests: seq<Request>): map<ClientKey, Session> {
    map k | k in clients ::
      if k.server == n then clients[k].(ingested := clients[k].ingested + CountFrom(requests, k.id)) else clients[k]
  }

  /** Each client's messages in the batch are the next ones it sent, in order. */
  predicate AreNext(clients: map<ClientKey, Session>, n: NodeId, requests: seq<Request>) {
    forall i :: 0 <= i < |requests| ==> IsNext(clients, ClientKey(n, requests[i].from), requests[..i], requests[i])
  }

  predicate IsNext(clients: map<ClientKey, Session>, k: ClientKey, before: seq<Request>, r: Request) {
    && k in clients
    && var x := clients[k].ingested + CountFrom(before, k.id);
       x < |clients[k].sent| && clients[k].sent[x] == r.msg
  }

  /** `handle_client_messages` takes in one message after the other, appending what the object proposes. What it
      learns meanwhile is a step by itself (`LearningIsStep`), once it is decided. */
  lemma {:induction false} RequestsAreSteps(cfg: Config, st: State, n: NodeId, requests: seq<Request>)
    requires Shape(cfg, st) && AreNext(st.clients, n, requests)
    ensures DoAll(cfg, st, IngestSteps(n, requests)) ==
      Some(st.(appended := st.appended + Proposals(n, requests), clients := TakenIn(st.clients, n, requests)))
  {
    hide StreamTo;
    if |requests| == 0 {
      assert TakenIn(st.clients, n, requests) == st.clients && st.appended + Proposals(n, requests) == st.appended;
    } else {
      var i := |requests| - 1;
      var init, r := requests[..i], requests[i];
      assert requests == init + [r];
      AreNextBefore(st.clients, n, init, r);
      hide Enabled, Do, TakenIn, Proposals, AreNext, IsNext;
      RequestsAreSteps(cfg, st, n, init);
      OneRequest(cfg, st, n, init, r);
    }
  }

  lemma AreNextBefore(clients: map<ClientKey, Session>, n: NodeId, before: seq<Request>, r: Request)
    requires AreNext(clients, n, before + [r])
    ensures AreNext(clients, n, before) && IsNext(clients, ClientKey(n, r.from), before, r)
  {
    hide IsNext;
    var all := before + [r];
    assert all[..|before|] == before && all[|before|] == r;
    forall j | 0 <= j < |before|
      ensures IsNext(clients, ClientKey(n, before[j].from), before[..j], before[j])
    {
      assert before[..j] == all[..j] && before[j] == all[j];
    }
  }

  lemma OneRequest(cfg: Config, st: State, n: NodeId, before: seq<Request>, r: Request)
    requires Shape(cfg, st) && IsNext(st.clients, ClientKey(n, r.from), before, r)
    ensures var k := ClientKey(n, r.from);
      var mid := st.(appended := st.appended + Proposals(n, before), clients := TakenIn(st.clients, n, before));
      && Enabled(cfg, mid, Ingest(k))
      && Do(cfg, mid, Ingest(k)) ==
           st.(appended := st.appended + Proposals(n, before + [r]), clients := TakenIn(st.clients, n, before + [r]))
  {
    hide StreamTo;
    var k, all := ClientKey(n, r.from), before + [r];
    var mid := st.(appended := st.appended + Proposals(n, before), clients := TakenIn(st.clients, n, before));
    assert all[..|before|] == before;
    assert Do(cfg, mid, Ingest(k)).appended == st.appended + Proposals(n, all);
    assert Do(cfg, mid, Ingest(k)).clients == TakenIn(st.clients, n, all);
  }

  // ---------------------------------------------------------------- ticks

  /** The leader's links to its peers, after the start signals in `told` were put on them. */
  function Told(inbox: map<NodeId, seq<Timestamp>>, told: seq<(NodeId, ClusterMessage)>): map<NodeId, seq<Timestamp>> {
    if |told| == 0 then inbox
    else
      var before, (to, m) := Told(inbox, told[..|told| - 1]), told[|told| - 1];
      if to in before && m.LeaderStartSignal? then before[to := before[to] + [m.time]] else before
  }

  lemma {:induction false} EachToldOnce(inbox: map<NodeId, seq<Timestamp>>, told: seq<(NodeId, ClusterMessage)>,
                                        peers: seq<NodeId>, t: Timestamp)
    requires forall i, j :: 0 <= i < j < |peers| ==> peers[i] != peers[j]
    requires |told| == |peers| && forall i :: 0 <= i < |told| ==> told[i] == (peers[i], LeaderStartSignal(t))
    ensures Told(inbox, told) == map n | n in inbox :: if n in peers then inbox[n] + [t] else inbox[n]
  {
    if |told| > 0 {
      var i := |told| - 1;
      EachToldOnce(inbox, told[..i], peers[..i], t);
      assert peers == peers[..i] + [peers[i]];
    }
  }

  lemma StartIsStep(cfg: Config, st: State, peers: seq<NodeId>, t: Timestamp, told: seq<(NodeId, ClusterMessage)>)
    requires Shape(cfg, st) && st.startTime == None
    requires forall i, j :: 0 <= i < j < |peers| ==> peers[i] != peers[j]
    requires forall m :: m in st.servers ==> (m in peers <==> m != cfg.leader)
    requires |told| == |peers| && forall i :: 0 <= i < |told| ==> told[i] == (peers[i], LeaderStartSignal(t))
    ensures Enabled(cfg, st, LeaderStart(t))
    ensures var n := cfg.leader;
      Do(cfg, st, LeaderStart(t)) ==
        st.(servers := st.servers[n := Signal(st.servers[n], cfg.numClients[n], t)],
            startTime := Some(t), announced := st.announced + {n}, inbox := Told(st.inbox, told))
  {
    hide StreamTo, StartSignals, Told;
    EachToldOnce(st.inbox, told, peers, t);
  }

  function TickStep(n: NodeId, phase: LoopPhase, known: nat, tick: Event): Step
    requires tick.Tick?
  {
    if Establishes(n, phase, tick) then LeaderStart(tick.now + SYNC_DELAY)
    else Learn(n, known + |LearnedAside(n, phase, tick)|)
  }

  function AfterTick(cfg: Config, st: State, n: NodeId, phase: LoopPhase, peers: seq<NodeId>, tick: Event): State
    requires Shape(cfg, st) && n in st.servers && tick.Tick?
  {
    var started := Establishes(n, phase, tick);
    st.(servers := st.servers[n := OnEvent(n, phase, cfg.numClients[n], st.servers[n], tick)],
        startTime := if started then Some(tick.now + SYNC_DELAY) else st.startTime,
        announced := if started then st.announced + {n} else st.announced,
        inbox := Told(st.inbox, ToldPeers(n, phase, peers, tick)))
  }

  /** A tick, in either loop, is the leader's start step or a learning step. The start step puts on each
      peer's link exactly what the object tells its peers. */
  lemma TickIsStep(cfg: Config, st: State, n: NodeId, phase: LoopPhase, peers: seq<NodeId>, tick: Event)
    requires Shape(cfg, st) && n in st.servers && tick.Tick? && (phase == Startup(cfg.leader) || phase == MainLoop)
    requires st.servers[n].decided + LearnedAside(n, phase, tick) <= st.log
    requires Establishes(n, phase, tick) ==> st.startTime == None
    requires forall i, j :: 0 <= i < j < |peers| ==> peers[i] != peers[j]
    requires forall m :: m in st.servers ==> (m in peers <==> m != n)
    ensures DoAll(cfg, st, [TickStep(n, phase, |st.servers[n].decided|, tick)]) ==
      Some(AfterTick(cfg, st, n, phase, peers, tick))
  {
    hide StreamTo, Enabled, Do, Signal;
    var step := TickStep(n, phase, |st.servers[n].decided|, tick);
    DoOneMore(cfg, st, [], step);
    assert [] + [step] == [step];
    if Establishes(n, phase, tick) {
      StartIsStep(cfg, st, peers, tick.now + SYNC_DELAY, ToldPeers(n, phase, peers, tick));
    } else {
      LearningIsStep(cfg, st, n, LearnedAside(n, phase, tick));
    }
  }
}
