/** The whole life of a server object, in both its loops, is part of a run of the cluster. */
module ServerLives {
  import opened KV
  import opened Replicas
  import opened Networks
  import opened Servers
  import opened Cluster
  import opened ClusterTheorems
  import opened ServerSteps

  /** What happens around one server: a step elsewhere, or one of its own turns. `decides` are the proposals
      decided while the turn appends its requests. */
  datatype Item = Elsewhere(step: Step) | Turn(event: Event, decides: seq<nat>)

  /** Steps that server `n` takes only in its own turns. */
  predicate IsOwn(cfg: Config, n: NodeId, step: Step) {
    match step
    case Ingest(k) => k.server == n
    case Learn(m, _) => m == n
    case ApplyDecided(m) => m == n
    case LeaderStart(_) => n == cfg.leader
    case FollowerStart(m) => m == n
    case _ => false
  }

  function DecideSteps(decides: seq<nat>): seq<Step> {
    seq(|decides|, i requires 0 <= i < |decides| => Decide(decides[i]))
  }

  function TurnSteps(n: NodeId, phase: LoopPhase, known: nat, e: Event, decides: seq<nat>): seq<Step> {
    match e
    case Tick(_, _, _) => [TickStep(n, phase, known, e)]
    case FromCluster(batch) => BatchSteps(n, known, batch)
    case FromClients(requests) =>
      IngestSteps(n, requests) + DecideSteps(decides) + [Learn(n, known + |LearnedBy(requests)|)]
  }

  /** Taking in the requests of a turn, and the decisions meanwhile. */
  function AfterRequests(cfg: Config, st: State, n: NodeId, requests: seq<Request>, decides: seq<nat>): Option<State> {
    DoAll(cfg, st.(appended := st.appended + Proposals(n, requests), clients := TakenIn(st.clients, n, requests)),
          DecideSteps(decides))
  }

  /** What the world owes a turn: what Omnipaxos learns is decided by then, start signals are those on the leader's
      link, and requests are what the clients sent next. */
  predicate IsPossible(cfg: Config, st: State, n: NodeId, phase: LoopPhase, e: Event, decides: seq<nat>)
    requires Shape(cfg, st) && n in st.servers
  {
    match e
    case Tick(_, _, _) => st.servers[n].decided + LearnedAside(n, phase, e) <= st.log
    case FromCluster(batch) =>
      st.servers[n].decided + LearnedFrom(batch) <= st.log && StartTimes(batch) <= st.inbox[n]
    case FromClients(requests) =>
      && AreNext(st.clients, n, requests)
      && var mid := AfterRequests(cfg, st, n, requests, decides);
         mid.Some? && st.servers[n].decided + LearnedBy(requests) <= mid.value.log
  }

  /** The state after all items, if each is possible in its turn. */
  function Story(cfg: Config, n: NodeId, phase: LoopPhase, st: State, items: seq<Item>): Option<State> {
    if |items| == 0 then Some(st)
    else
      var before := Story(cfg, n, phase, st, items[..|items| - 1]);
      if before.Some? then Next(cfg, n, phase, before.value, items[|items| - 1]) else None
  }

  function Next(cfg: Config, n: NodeId, phase: LoopPhase, st: State, item: Item): Option<State> {
    if !(Shape(cfg, st) && n in st.servers) then None
    else
      match item
      case Elsewhere(step) => if Enabled(cfg, st, step) && !IsOwn(cfg, n, step) then Some(Do(cfg, st, step)) else None
      case Turn(e, decides) =>
        if IsPossible(cfg, st, n, phase, e, decides)
        then DoAll(cfg, st, TurnSteps(n, phase, |st.servers[n].decided|, e, decides))
        else None
  }

  /** The server's own events among the items. */
  function Events(items: seq<Item>): seq<Event> {
    if |items| == 0 then []
    else
      var last := items[|items| - 1];
      Events(items[..|items| - 1]) + (if last.Turn? then [last.event] else [])
  }

  // ---------------------------------------------------------------- sequences of steps

  lemma {:induction false} DoAllInTurn(cfg: Config, st: State, a: seq<Step>, b: seq<Step>)
    requires DoAll(cfg, st, a).Some?
    ensures DoAll(cfg, st, a + b) == DoAll(cfg, DoAll(cfg, st, a).value, b)
  {
    hide Enabled, Do;
    if |b| == 0 {
      assert a + b == a;
    } else {
      DoAllInTurn(cfg, st, a, b[..|b| - 1]);
      assert (a + b)[..|a + b| - 1] == a + b[..|b| - 1];
    }
  }

  /** Deciding proposals changes the log alone. */
  lemma {:induction false} DecidesKeep(cfg: Config, st: State, decides: seq<nat>)
    ensures var end := DoAll(cfg, st, DecideSteps(decides));
      end.Some? ==> end.value == st.(order := end.value.order, log := end.value.log)
  {
    hide StreamTo;
    if |decides| > 0 {
      DecidesKeep(cfg, st, decides[..|decides| - 1]);
      assert DecideSteps(decides)[..|decides| - 1] == DecideSteps(decides[..|decides| - 1]);
    }
  }

  // ---------------------------------------------------------------- one item

  lemma ElsewhereKeepsServer(cfg: Config, st: State, n: NodeId, step: Step)
    requires Shape(cfg, st) && n in st.servers && Enabled(cfg, st, step) && !IsOwn(cfg, n, step)
    ensures var st' := Do(cfg, st, step);
      && Shape(cfg, st') && n in st'.servers && st'.servers[n] == st.servers[n]
      && (n == cfg.leader ==> st'.startTime == st.startTime)
  {
    hide StreamTo, CatchUp, Signal;
  }

  predicate ArePeers(st: State, n: NodeId, peers: seq<NodeId>) {
    && (forall i, j :: 0 <= i < j < |peers| ==> peers[i] != peers[j])
    && (forall m :: m in st.servers ==> (m in peers <==> m != n))
  }

  lemma RequestsTurn(cfg: Config, st: State, n: NodeId, phase: LoopPhase, requests: seq<Request>, decides: seq<nat>)
    requires Shape(cfg, st) && n in st.servers && IsPossible(cfg, st, n, phase, FromClients(requests), decides)
    ensures var end := DoAll(cfg, st, TurnSteps(n, phase, |st.servers[n].decided|, FromClients(requests), decides));
      && end.Some? && Shape(cfg, end.value)
      && end.value.servers == st.servers[n := Learns(st.servers[n], LearnedBy(requests))]
      && end.value.startTime == st.startTime
  {
    hide DoAll, IngestSteps, DecideSteps, AreNext, TakenIn, Proposals, LearnedBy, Enabled, Do;
    var ingests, learn := IngestSteps(n, requests), Learn(n, |st.servers[n].decided| + |LearnedBy(requests)|);
    RequestsAreSteps(cfg, st, n, requests);
    DoAllInTurn(cfg, st, ingests, DecideSteps(decides));
    var mid := AfterRequests(cfg, st, n, requests, decides).value;
    var taken := st.(appended := st.appended + Proposals(n, requests), clients := TakenIn(st.clients, n, requests));
    DecidesKeep(cfg, taken, decides);
    TakenInKeys(st.clients, n, requests);
    LearningIsStep(cfg, mid, n, LearnedBy(requests));
    DoOneMore(cfg, st, ingests + DecideSteps(decides), learn);
  }

  lemma TakenInKeys(clients: map<ClientKey, Session>, n: NodeId, requests: seq<Request>)
    ensures TakenIn(clients, n, requests).Keys == clients.Keys
  {
  }

  /** A possible turn is a sequence of steps, changes the server as the object does, and sets the start time only
      if it establishes the leader. */
  lemma TurnIsSteps(cfg: Config, st: State, n: NodeId, phase: LoopPhase, peers: seq<NodeId>, e: Event,
                    decides: seq<nat>)
    requires Shape(cfg, st) && n in st.servers && ArePeers(st, n, peers)
    requires phase == Startup(cfg.leader) || phase == MainLoop
    requires IsPossible(cfg, st, n, phase, e, decides) && (Establishes(n, phase, e) ==> st.startTime == None)
    ensures var end := DoAll(cfg, st, TurnSteps(n, phase, |st.servers[n].decided|, e, decides));
      && end.Some? && Shape(cfg, end.value)
      && end.value.servers == st.servers[n := OnEvent(n, phase, cfg.numClients[n], st.servers[n], e)]
      && (!Establishes(n, phase, e) ==> end.value.startTime == st.startTime)
  {
    hide DoAll, BatchSteps, LearnedFrom, StartTimes, OnClusterMessages;
    match e {
      case Tick(_, _, _) =>
        TickIsStep(cfg, st, n, phase, peers, e);
        ToldKeys(st.inbox, ToldPeers(n, phase, peers, e));
      case FromCluster(batch) =>
        BatchIsSteps(cfg, st, n, batch);
      case FromClients(requests) =>
        RequestsTurn(cfg, st, n, phase, requests, decides);
    }
  }

  lemma {:induction false} ToldKeys(inbox: map<NodeId, seq<Timestamp>>, told: seq<(NodeId, ClusterMessage)>)
    ensures Told(inbox, told).Keys == inbox.Keys
  {
    if |told| > 0 {
      ToldKeys(inbox, told[..|told| - 1]);
    }
  }

  // ---------------------------------------------------------------- whole lives

  /** Only the last of these events may establish the leader. */
  predicate EstablishesLast(n: NodeId, phase: LoopPhase, es: seq<Event>) {
    forall i :: 0 <= i < |es| - 1 ==> !Establishes(n, phase, es[i])
  }

  predicate EstablishesNever(n: NodeId, phase: LoopPhase, es: seq<Event>) {
    forall i :: 0 <= i < |es| ==> !Establishes(n, phase, es[i])
  }

  lemma EstablishesSplit(n: NodeId, phase: LoopPhase, init: seq<Event>, last: Event)
    ensures EstablishesLast(n, phase, init + [last]) ==> EstablishesNever(n, phase, init)
    ensures EstablishesNever(n, phase, init + [last]) <==>
      EstablishesNever(n, phase, init) && !Establishes(n, phase, last)
    ensures EstablishesNever(n, phase, init) ==> EstablishesLast(n, phase, init)
  {
    var all := init + [last];
    assert all[|init|] == last && forall i :: 0 <= i < |init| ==> all[i] == init[i];
  }

  /** A start time that only this server can choose has not been chosen yet. */
  predicate Undecided(cfg: Config, st: State, n: NodeId, phase: LoopPhase) {
    n == cfg.leader && phase.Startup? ==> st.startTime == None
  }

  lemma {:induction false} StoryIsLoop(cfg: Config, n: NodeId, phase: LoopPhase, peers: seq<NodeId>, st: State,
                                       items: seq<Item>)
    returns (steps: seq<Step>)
    requires Shape(cfg, st) && n in st.servers && ArePeers(st, n, peers)
    requires phase == Startup(cfg.leader) || phase == MainLoop
    requires Story(cfg, n, phase, st, items).Some? && Undecided(cfg, st, n, phase)
    requires EstablishesLast(n, phase, Events(items))
    ensures var end := Story(cfg, n, phase, st, items).value;
      && DoAll(cfg, st, steps) == Some(end) && Shape(cfg, end) && end.servers.Keys == st.servers.Keys
      && end.servers[n] == OnEvents(n, phase, cfg.numClients[n], st.servers[n], Events(items))
      && (EstablishesNever(n, phase, Events(items)) ==> Undecided(cfg, end, n, phase))
  {
    hide Enabled, Do, OnEvent, Establishes, EstablishesLast, EstablishesNever, IsPossible, TurnSteps, IsOwn;
    if |items| == 0 {
      steps := [];
    } else {
      var init, last := items[..|items| - 1], items[|items| - 1];
      if last.Turn? {
        EstablishesSplit(n, phase, Events(init), last.event);
      } else {
        assert Events(items) == Events(init);
      }
      steps := StoryIsLoop(cfg, n, phase, peers, st, init);
      var more := NextIsSteps(cfg, n, phase, peers, Story(cfg, n, phase, st, init).value, last);
      DoAllInTurn(cfg, st, steps, more);
      steps := steps + more;
      if last.Turn? {
        assert Events(items)[..|Events(init)|] == Events(init);
      }
    }
  }

  lemma NextIsSteps(cfg: Config, n: NodeId, phase: LoopPhase, peers: seq<NodeId>, st: State, item: Item)
    returns (steps: seq<Step>)
    requires Shape(cfg, st) && n in st.servers && ArePeers(st, n, peers)
    requires phase == Startup(cfg.leader) || phase == MainLoop
    requires Next(cfg, n, phase, st, item).Some?
    requires item.Turn? && Establishes(n, phase, item.event) ==> Undecided(cfg, st, n, phase)
    ensures var end := Next(cfg, n, phase, st, item).value;
      && DoAll(cfg, st, steps) == Some(end) && Shape(cfg, end) && end.servers.Keys == st.servers.Keys
      && end.servers[n] ==
           (if item.Turn? then OnEvent(n, phase, cfg.numClients[n], st.servers[n], item.event) else st.servers[n])
      && (Undecided(cfg, st, n, phase) && (item.Turn? ==> !Establishes(n, phase, item.event)) ==>
            Undecided(cfg, end, n, phase))
  {
    hide Enabled, Do, OnEvent, IsPossible, TurnSteps, IsOwn;
    match item {
      case Elsewhere(step) =>
        steps := [step];
        DoOneMore(cfg, st, [], step);
        assert [] + [step] == [step];
        ElsewhereKeepsServer(cfg, st, n, step);
      case Turn(e, decides) =>
        steps := TurnSteps(n, phase, |st.servers[n].decided|, e, decides);
        TurnIsSteps(cfg, st, n, phase, peers, e, decides);
    }
  }

  /** Take any server, its events in the start-up loop and then in the main loop, and whatever happens elsewhere in
      between. So long as each turn is possible, all of it together is a run of the cluster, at the end of which
      the server is what its object has made of itself by then. So all that holds of runs holds of the object. */
  lemma LifeIsInRun(cfg: Config, st: State, n: NodeId, peers: seq<NodeId>, first: seq<Item>, second: seq<Item>)
    returns (run: seq<State>, steps: seq<Step>)
    requires Init(cfg, st) && n in cfg.numClients && ArePeers(st, n, peers)
    requires Story(cfg, n, Startup(cfg.leader), st, first).Some?
    requires Story(cfg, n, MainLoop, Story(cfg, n, Startup(cfg.leader), st, first).value, second).Some?
    requires EndsStartup(n, cfg.leader, Events(first) + Events(second), |Events(first)|)
    ensures IsRun(cfg, run, steps) && |run| == |steps| + 1
    ensures var end := Story(cfg, n, MainLoop, Story(cfg, n, Startup(cfg.leader), st, first).value, second).value;
      && run[|steps|] == end && n in end.servers
      && end.servers[n] ==
           Life(n, cfg.leader, cfg.numClients[n], Events(first) + Events(second), |Events(first)|)
  {
    var phase, es1, es2 := Startup(cfg.leader), Events(first), Events(second);
    StartupEstablishesLast(n, cfg.leader, es1, es2);
    MainLoopEstablishesNothing(n, es2);
    StartsAsNew(cfg, st, n);
    hide *;
    var a := StoryIsLoop(cfg, n, phase, peers, st, first);
    var mid := Story(cfg, n, phase, st, first).value;
    SamePeers(st, mid, n, peers);
    MainLoopIsUndecided(cfg, mid, n);
    var b := StoryIsLoop(cfg, n, MainLoop, peers, mid, second);
    DoAllInTurn(cfg, st, a, b);
    run := RunGoesOn(cfg, [st], [], a + b);
    steps := [] + (a + b);
    LifeInTwoLoops(n, cfg.leader, cfg.numClients[n], es1, es2);
  }

  lemma StartsAsNew(cfg: Config, st: State, n: NodeId)
    requires Init(cfg, st) && n in cfg.numClients
    ensures Shape(cfg, st) && n in st.servers && st.servers[n] == Server([], 0, Replica(map[], []))
    ensures Undecided(cfg, st, n, Startup(cfg.leader)) && IsRun(cfg, [st], [])
  {
  }

  lemma SamePeers(st: State, st': State, n: NodeId, peers: seq<NodeId>)
    requires ArePeers(st, n, peers) && st'.servers.Keys == st.servers.Keys
    ensures ArePeers(st', n, peers)
  {
  }

  lemma MainLoopIsUndecided(cfg: Config, st: State, n: NodeId)
    ensures Undecided(cfg, st, n, MainLoop)
  {
  }

  lemma LifeInTwoLoops(me: NodeId, leader: NodeId, numClients: nat, first: seq<Event>, second: seq<Event>)
    ensures Life(me, leader, numClients, first + second, |first|) ==
      OnEvents(me, MainLoop, numClients,
               OnEvents(me, Startup(leader), numClients, Server([], 0, Replica(map[], [])), first), second)
  {
    hide OnEvents;
    assert (first + second)[..|first|] == first && (first + second)[|first|..] == second;
  }

  lemma StartupEstablishesLast(n: NodeId, leader: NodeId, es: seq<Event>, more: seq<Event>)
    requires EndsStartup(n, leader, es + more, |es|)
    ensures EstablishesLast(n, Startup(leader), es)
  {
    forall i | 0 <= i < |es| - 1
      ensures !Establishes(n, Startup(leader), es[i])
    {
      assert (es + more)[i] == es[i];
      assert Announces(n, Startup(leader), es[i]) == [];
    }
  }

  lemma MainLoopEstablishesNothing(n: NodeId, es: seq<Event>)
    ensures EstablishesLast(n, MainLoop, es)
  {
  }
}
