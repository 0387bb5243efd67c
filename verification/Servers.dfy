/** The server object of src/server/server.rs. Its methods carry out, in place, the steps that
    Replicas describes on values; what arrives from clients, peers and clock comes in as parameters. */
module Servers {
  import opened KV
  import opened Replicas
  import opened Networks
  import opened Seqs

  /** An entry read back from Omnipaxos; the other kinds of entry never occur in a decided suffix. */
  datatype LogEntry = Decided(cmd: Command) | Other

  /** The consensus library, reduced to what this model assumes of it: a decided log that only grows,
      and a list of proposals. Any call that lets it work may extend the decided log, by `learned`. */
  class OmniPaxos {
    var decided: seq<Command>
    var proposed: seq<Command>

    constructor ()
      ensures decided == [] && proposed == []
    {
      decided, proposed := [], [];
    }

    method GetDecidedIdx() returns (n: nat)
      ensures n == |decided|
    {
      n := |decided|;
    }

    method ReadDecidedSuffix(from: nat) returns (entries: seq<LogEntry>)
      requires from <= |decided|
      ensures |entries| == |decided| - from
      ensures forall i :: 0 <= i < |entries| ==> entries[i] == Decided(decided[from + i])
    {
      var suffix := decided[from..];
      entries := seq(|suffix|, i requires 0 <= i < |suffix| => Decided(suffix[i]));
    }

    method Append(cmd: Command, learned: seq<Command>)
      modifies this`proposed, this`decided
      ensures proposed == old(proposed) + [cmd] && decided == old(decided) + learned
    {
      proposed, decided := proposed + [cmd], decided + learned;
    }

    method HandleIncoming(learned: seq<Command>)
      modifies this`decided
      ensures decided == old(decided) + learned
    {
      decided := decided + learned;
    }

    method Tick(learned: seq<Command>)
      modifies this`decided
      ensures decided == old(decided) + learned
    {
      decided := decided + learned;
    }

    method TryBecomeLeader(learned: seq<Command>)
      modifies this`decided
      ensures decided == old(decided) + learned
    {
      decided := decided + learned;
    }
  }

  // ---------------------------------------------------------------- specifications

  /** The server knows of more decided entries, and has not looked at them yet. */
  function Learns(s: Server, learned: seq<Command>): Server {
    s.(decided := s.decided + learned)
  }

  function OnClusterMessage(me: NodeId, numClients: nat, s: Server, m: ClusterMessage): Server {
    match m
    case OmniPaxosMessage(learned) => CatchUp(me, Learns(s, learned))
    case LeaderStartSignal(t) => Signal(s, numClients, t)
  }

  function OnClusterMessages(me: NodeId, numClients: nat, s: Server, ms: seq<(NodeId, ClusterMessage)>): Server {
    if |ms| == 0 then s
    else OnClusterMessage(me, numClients, OnClusterMessages(me, numClients, s, ms[..|ms| - 1]), ms[|ms| - 1].1)
  }

  /** The times of the leader's start signals in a batch. */
  function StartTimes(ms: seq<(NodeId, ClusterMessage)>): seq<Timestamp> {
    if |ms| == 0 then []
    else
      var m := ms[|ms| - 1].1;
      StartTimes(ms[..|ms| - 1]) + (if m.LeaderStartSignal? then [m.time] else [])
  }

  /** A client's message, and what Omnipaxos learns while it is appended. */
  datatype Request = Request(from: ClientId, msg: ClientMessage, learned: seq<Command>)

  /** The commands a server proposes for a batch of client messages, and what it learns meanwhile. */
  function Proposals(me: NodeId, requests: seq<Request>): seq<Command> {
    if |requests| == 0 then []
    else
      var r := requests[|requests| - 1];
      Proposals(me, requests[..|requests| - 1]) + [Command(r.from, me, r.msg.id, r.msg.kvCmd)]
  }

  function LearnedBy(requests: seq<Request>): seq<Command> {
    if |requests| == 0 then [] else LearnedBy(requests[..|requests| - 1]) + requests[|requests| - 1].learned
  }

  /** What wakes the server: a timer tick, with the clock and Omnipaxos's answer to `get_current_leader` at that
      moment, or a batch of messages. */
  datatype Event =
    | Tick(now: Timestamp, current: Option<(NodeId, bool)>, learned: seq<Command>)
    | FromCluster(batch: seq<(NodeId, ClusterMessage)>)
    | FromClients(requests: seq<Request>)

  /** The two loops of the server: waiting for `leader` to be established, then the main event loop. They
      differ in what a tick does. */
  datatype LoopPhase = Startup(leader: NodeId) | MainLoop

  const SYNC_DELAY: int := 2000

  predicate Establishes(me: NodeId, phase: LoopPhase, e: Event) {
    phase == Startup(me) && e.Tick? && e.current == Some((me, true))
  }

  /** The start times an event makes the server announce to its clients. */
  function Announces(me: NodeId, phase: LoopPhase, e: Event): seq<Timestamp> {
    match e
    case Tick(now, _, _) => if Establishes(me, phase, e) then [now + SYNC_DELAY] else []
    case FromCluster(batch) => StartTimes(batch)
    case FromClients(_) => []
  }

  predicate HasStartSignal(ms: seq<(NodeId, ClusterMessage)>) {
    exists i :: 0 <= i < |ms| && ms[i].1.LeaderStartSignal?
  }

  /** The events that end start-up: for the designated leader, a tick at which it leads and is in the accept
      phase; for anybody, a batch with a start signal. */
  predicate IsStart(me: NodeId, leader: NodeId, e: Event) {
    match e
    case Tick(_, current, _) => me == leader && current == Some((me, true))
    case FromCluster(batch) => HasStartSignal(batch)
    case FromClients(_) => false
  }

  /** One message to each peer, in order. */
  function ToEach(peers: seq<NodeId>, m: ClusterMessage): seq<(NodeId, ClusterMessage)> {
    seq(|peers|, i requires 0 <= i < |peers| => (peers[i], m))
  }

  /** What an event teaches the server other than through a message. Only the designated leader's start-up loop
      ticks, and it stops calling Omnipaxos once the leader is established. */
  function LearnedAside(me: NodeId, phase: LoopPhase, e: Event): seq<Command> {
    match e
    case Tick(_, _, learned) =>
      if phase.Startup? && (phase.leader != me || Establishes(me, phase, e)) then [] else learned
    case FromCluster(_) => []
    case FromClients(requests) => LearnedBy(requests)
  }

  /** What an event does to the server's own state, and what it makes the server propose and tell its peers. */
  function OnEvent(me: NodeId, phase: LoopPhase, numClients: nat, s: Server, e: Event): Server {
    match e
    case Tick(now, _, _) =>
      if Establishes(me, phase, e) then Signal(s, numClients, now + SYNC_DELAY)
      else Learns(s, LearnedAside(me, phase, e))
    case FromCluster(batch) => OnClusterMessages(me, numClients, s, batch)
    case FromClients(_) => Learns(s, LearnedAside(me, phase, e))
  }

  function ProposedBy(me: NodeId, e: Event): seq<Command> {
    if e.FromClients? then Proposals(me, e.requests) else []
  }

  function ToldPeers(me: NodeId, phase: LoopPhase, peers: seq<NodeId>, e: Event): seq<(NodeId, ClusterMessage)> {
    if Establishes(me, phase, e)
    then seq(|peers|, i requires 0 <= i < |peers| => (peers[i], LeaderStartSignal(e.now + SYNC_DELAY)))
    else []
  }

  function OnEvents(me: NodeId, phase: LoopPhase, numClients: nat, s: Server, es: seq<Event>): Server {
    if |es| == 0 then s
    else OnEvent(me, phase, numClients, OnEvents(me, phase, numClients, s, es[..|es| - 1]), es[|es| - 1])
  }

  function AllProposed(me: NodeId, es: seq<Event>): seq<Command> {
    if |es| == 0 then [] else AllProposed(me, es[..|es| - 1]) + ProposedBy(me, es[|es| - 1])
  }

  /** Start-up uses the events up to the first that announces a start time, or all if none does. */
  predicate EndsStartup(me: NodeId, leader: NodeId, es: seq<Event>, used: nat) {
    && used <= |es|
    && (forall i :: 0 <= i < used - 1 ==> Announces(me, Startup(leader), es[i]) == [])
    && (used < |es| ==> used > 0 && Announces(me, Startup(leader), es[used - 1]) != [])
  }

  /** The start times announced by a sequence of events in one loop, and by those of a whole life. */
  function Times(me: NodeId, phase: LoopPhase, es: seq<Event>): seq<Timestamp> {
    if |es| == 0 then [] else Times(me, phase, es[..|es| - 1]) + Announces(me, phase, es[|es| - 1])
  }

  function LifeTimes(me: NodeId, leader: NodeId, es: seq<Event>, used: nat): seq<Timestamp>
    requires used <= |es|
  {
    Times(me, Startup(leader), es[..used]) + Times(me, MainLoop, es[used..])
  }

  function AsSignals(times: seq<Timestamp>): seq<ServerMessage> {
    seq(|times|, i requires 0 <= i < |times| => StartSignal(times[i]))
  }

  /** From `before` to `after`, clients 1..numClients were handed start signals with exactly `times`,
      in order, and nobody else any. */
  ghost predicate Announced(before: seq<Handed>, after: seq<Handed>, numClients: nat, times: seq<Timestamp>) {
    forall c: ClientId :: Signals(StreamTo(after, c)) ==
      Signals(StreamTo(before, c)) + (if 1 <= c <= numClients then AsSignals(times) else [])
  }

  class OmniPaxosServer {
    const id: NodeId
    const initialLeader: NodeId
    const numClients: nat
    const database: Database
    const network: Network
    const omnipaxos: OmniPaxos
    var currentDecidedIdx: nat

    ghost function View(): Server
      reads this, database, network, omnipaxos
    {
      Server(omnipaxos.decided, currentDecidedIdx, Replica(database.db, network.handed))
    }

    ghost predicate Valid()
      reads this, network, omnipaxos
    {
      network.Valid() && currentDecidedIdx <= |omnipaxos.decided|
    }

    constructor (id: NodeId, initialLeader: NodeId, numClients: nat, network: Network)
      requires network.Valid() && network.handed == []
      ensures Valid() && View() == Server([], 0, Replica(map[], []))
      ensures this.id == id && this.initialLeader == initialLeader && this.numClients == numClients
      ensures this.network == network
    {
      this.id, this.initialLeader, this.numClients, this.network := id, initialLeader, numClients, network;
      database := new Database();
      omnipaxos := new OmniPaxos();
      currentDecidedIdx := 0;
    }

    method HandleDecidedEntries()
      requires Valid()
      modifies this, database, network
      ensures Valid() && View() == CatchUp(id, old(View()))
      ensures network.handedToPeers == old(network.handedToPeers)
    {
      var newDecidedIdx := omnipaxos.GetDecidedIdx();
      if currentDecidedIdx < newDecidedIdx {
        var entries := omnipaxos.ReadDecidedSuffix(currentDecidedIdx);
        ghost var from := currentDecidedIdx;
        currentDecidedIdx := newDecidedIdx;
        var commands := seq(|entries|, i requires 0 <= i < |entries| => entries[i].cmd);
        assert commands == omnipaxos.decided[from..];
        UpdateDatabaseAndRespond(commands);
      }
    }

    method UpdateDatabaseAndRespond(commands: seq<Command>)
      requires Valid()
      modifies database, network
      ensures Valid() && network.handedToPeers == old(network.handedToPeers)
      ensures Replica(database.db, network.handed) ==
        ExecuteAll(id, old(Replica(database.db, network.handed)), commands)
    {
      for i := 0 to |commands|
        invariant Valid() && network.handedToPeers == old(network.handedToPeers)
        invariant Replica(database.db, network.handed) ==
          ExecuteAll(id, old(Replica(database.db, network.handed)), commands[..i])
      {
        var command := commands[i];
        assert commands[..i + 1][..i] == commands[..i];
        var read := database.HandleCommand(command.kvCmd);
        if command.coordinatorId == id {
          var response := match read
            case Some(readResult) => ServerMessage.Read(command.id, readResult)
            case None => ServerMessage.Write(command.id);
          network.SendToClient(command.clientId, response);
        }
      }
      assert commands[..|commands|] == commands;
    }

    method AppendToLog(from: ClientId, commandId: CommandId, kvCommand: KVCommand, learned: seq<Command>)
      modifies omnipaxos
      ensures omnipaxos.proposed == old(omnipaxos.proposed) + [Command(from, id, commandId, kvCommand)]
      ensures omnipaxos.decided == old(omnipaxos.decided) + learned
    {
      omnipaxos.Append(Command(from, id, commandId, kvCommand), learned);
    }

    method HandleClientMessages(messages: seq<Request>)
      requires Valid()
      modifies omnipaxos
      ensures Valid() && View() == Learns(old(View()), LearnedBy(messages))
      ensures omnipaxos.proposed == old(omnipaxos.proposed) + Proposals(id, messages)
    {
      for i := 0 to |messages|
        invariant omnipaxos.proposed == old(omnipaxos.proposed) + Proposals(id, messages[..i])
        invariant omnipaxos.decided == old(omnipaxos.decided) + LearnedBy(messages[..i])
      {
        assert messages[..i + 1][..i] == messages[..i];
        AppendToLog(messages[i].from, messages[i].msg.id, messages[i].msg.kvCmd, messages[i].learned);
      }
      assert messages[..|messages|] == messages;
    }

    method HandleClusterMessages(messages: seq<(NodeId, ClusterMessage)>) returns (receivedStartSignal: bool)
      requires Valid()
      modifies this, database, network, omnipaxos`decided
      ensures Valid() && View() == OnClusterMessages(id, numClients, old(View()), messages)
      ensures receivedStartSignal <==> StartTimes(messages) != []
      ensures network.handedToPeers == old(network.handedToPeers)
    {
      receivedStartSignal := false;
      for i := 0 to |messages|
        invariant Valid() && network.handedToPeers == old(network.handedToPeers)
        invariant View() == OnClusterMessages(id, numClients, old(View()), messages[..i])
        invariant receivedStartSignal <==> StartTimes(messages[..i]) != []
      {
        assert messages[..i + 1][..i] == messages[..i];
        match messages[i].1 {
          case OmniPaxosMessage(learned) =>
            omnipaxos.HandleIncoming(learned);
            HandleDecidedEntries();
          case LeaderStartSignal(startTime) =>
            receivedStartSignal := true;
            SendClientStartSignals(startTime);
        }
      }
      assert messages[..|messages|] == messages;
    }

    method SendClusterStartSignals(startTime: Timestamp)
      requires Valid()
      modifies network`peerConnections, network`handedToPeers
      ensures Valid()
      ensures network.handedToPeers == old(network.handedToPeers) +
        seq(|network.peers|, i requires 0 <= i < |network.peers| => (network.peers[i], LeaderStartSignal(startTime)))
    {
      for i := 0 to |network.peers|
        invariant Valid() && |network.handedToPeers| == |old(network.handedToPeers)| + i
        invariant old(network.handedToPeers) <= network.handedToPeers
        invariant forall j :: 0 <= j < i ==>
          network.handedToPeers[|old(network.handedToPeers)| + j] == (network.peers[j], LeaderStartSignal(startTime))
      {
        network.SendToCluster(network.peers[i], LeaderStartSignal(startTime));
      }
    }

    method SendClientStartSignals(startTime: Timestamp)
      requires Valid()
      modifies network
      ensures Valid() && network.handed == old(network.handed) + StartSignals(numClients, startTime)
      ensures network.handedToPeers == old(network.handedToPeers)
    {
      var clientId := 1;
      while clientId < numClients + 1
        invariant 1 <= clientId <= numClients + 1 && Valid() && network.handedToPeers == old(network.handedToPeers)
        invariant network.handed == old(network.handed) + StartSignals(clientId - 1, startTime)
      {
        network.SendToClient(clientId, StartSignal(startTime));
        clientId := clientId + 1;
      }
    }

    /** At the designated leader the loop returns at the first tick at which it leads and is in the accept phase;
        it then tells every peer, and clients 1..numClients, to start two seconds later. It also returns after the
        first batch with the leader's start signal, and hands its times to the clients. Nothing else ends it, and
        nothing else tells anybody anything. */
    method EstablishInitialLeader(events: seq<Event>) returns (used: nat, started: bool)
      requires Valid()
      modifies this, database, network, omnipaxos
      ensures Valid() && used <= |events| && (started ==> used > 0)
      ensures forall i :: 0 <= i < used ==> (IsStart(id, initialLeader, events[i]) <==> started && i == used - 1)
      ensures started && events[used - 1].Tick? ==>
        var t := events[used - 1].now + 2000;
        && network.handedToPeers == old(network.handedToPeers) + ToEach(network.peers, LeaderStartSignal(t))
        && Announced(old(network.handed), network.handed, numClients, [t])
      ensures started && events[used - 1].FromCluster? ==>
        Announced(old(network.handed), network.handed, numClients, StartTimes(events[used - 1].batch))
      ensures !started ==> Announced(old(network.handed), network.handed, numClients, [])
      ensures !started || !events[used - 1].Tick? ==> network.handedToPeers == old(network.handedToPeers)
      ensures forall i :: 0 <= i < used ==>
        (Announces(id, Startup(initialLeader), events[i]) != [] <==> started && i == used - 1)
      ensures !started ==> used == |events|
      ensures View() == OnEvents(id, Startup(initialLeader), numClients, old(View()), events[..used])
      ensures omnipaxos.proposed == old(omnipaxos.proposed) + AllProposed(id, events[..used])
      ensures network.handedToPeers == old(network.handedToPeers) +
        (if started then ToldPeers(id, Startup(initialLeader), network.peers, events[used - 1]) else [])
      ensures Announced(old(network.handed), network.handed, numClients,
                        if started then Announces(id, Startup(initialLeader), events[used - 1]) else [])
    {
      hide Announced, Announces, OnEvent, ProposedBy, ToldPeers, IsStart, Network.Valid;
      used, started := 0, false;
      NothingAnnounced(network.handed, numClients);
      while used < |events|
        invariant used <= |events| && Valid()
        invariant forall i :: 0 <= i < used ==> Announces(id, Startup(initialLeader), events[i]) == []
        invariant forall i :: 0 <= i < used ==> !IsStart(id, initialLeader, events[i])
        invariant View() == OnEvents(id, Startup(initialLeader), numClients, old(View()), events[..used])
        invariant omnipaxos.proposed == old(omnipaxos.proposed) + AllProposed(id, events[..used])
        invariant network.handedToPeers == old(network.handedToPeers)
        invariant Announced(old(network.handed), network.handed, numClients, [])
      {
        ghost var before := network.handed;
        ghost var times := Announces(id, Startup(initialLeader), events[used]);
        assert events[..used + 1][..used] == events[..used];
        WhatStarts(id, initialLeader, network.peers, events[used]);
        started := HandleStartupEvent(events[used]);
        AnnouncedAfterNothing(old(network.handed), before, network.handed, numClients, times);
        used := used + 1;
        if started {
          return;
        }
      }
    }

    method HandleStartupEvent(event: Event) returns (started: bool)
      requires Valid()
      modifies this, database, network, omnipaxos
      ensures Valid() && (started <==> Announces(id, Startup(initialLeader), event) != [])
      ensures View() == OnEvent(id, Startup(initialLeader), numClients, old(View()), event)
      ensures omnipaxos.proposed == old(omnipaxos.proposed) + ProposedBy(id, event)
      ensures network.handedToPeers ==
        old(network.handedToPeers) + ToldPeers(id, Startup(initialLeader), network.peers, event)
      ensures Announced(old(network.handed), network.handed, numClients, Announces(id, Startup(initialLeader), event))
      ensures started <==> IsStart(id, initialLeader, event)
      ensures started && event.Tick? ==>
        var t := event.now + 2000;
        && network.handedToPeers == old(network.handedToPeers) + ToEach(network.peers, LeaderStartSignal(t))
        && Announced(old(network.handed), network.handed, numClients, [t])
      ensures !started || !event.Tick? ==> network.handedToPeers == old(network.handedToPeers)
    {
      WhatStarts(id, initialLeader, network.peers, event);
      EventAnnounces(id, Startup(initialLeader), numClients, View(), event);
      started := false;
      match event {
        case Tick(now, current, learned) =>
          if initialLeader == id {
            if current == Some((id, true)) {
              SendClusterStartSignals(now + SYNC_DELAY);
              SendClientStartSignals(now + SYNC_DELAY);
              started := true;
            } else {
              omnipaxos.TryBecomeLeader(learned);
            }
          }
        case FromCluster(batch) =>
          started := HandleClusterMessages(batch);
        case FromClients(requests) =>
          HandleClientMessages(requests);
      }
    }

    /** One turn of the main event loop. */
    method HandleEvent(event: Event)
      requires Valid()
      modifies this, database, network, omnipaxos
      ensures Valid() && View() == OnEvent(id, MainLoop, numClients, old(View()), event)
      ensures omnipaxos.proposed == old(omnipaxos.proposed) + ProposedBy(id, event)
      ensures network.handedToPeers == old(network.handedToPeers)
    {
      match event {
        case Tick(_, _, learned) =>
          omnipaxos.Tick(learned);
        case FromCluster(batch) =>
          var _ := HandleClusterMessages(batch);
        case FromClients(requests) =>
          HandleClientMessages(requests);
      }
    }

    method EventLoop(events: seq<Event>)
      requires Valid()
      modifies this, database, network, omnipaxos
      ensures Valid() && View() == OnEvents(id, MainLoop, numClients, old(View()), events)
      ensures omnipaxos.proposed == old(omnipaxos.proposed) + AllProposed(id, events)
      ensures network.handedToPeers == old(network.handedToPeers)
    {
      hide OnEvent, ProposedBy, Network.Valid;
      for i := 0 to |events|
        invariant Valid() && network.handedToPeers == old(network.handedToPeers)
        invariant View() == OnEvents(id, MainLoop, numClients, old(View()), events[..i])
        invariant omnipaxos.proposed == old(omnipaxos.proposed) + AllProposed(id, events[..i])
      {
        assert events[..i + 1][..i] == events[..i];
        HandleEvent(events[i]);
      }
      assert events[..|events|] == events;
    }

    /** `run`: start-up takes the events up to the first that announces a start time, the main loop the others;
        only start-up tells peers anything. Whatever the events are, the server has kept its promises, and lags
        behind by exactly what it learned outside messages since the last one. */
    method Run(events: seq<Event>) returns (used: nat)
      requires Valid() && View() == Server([], 0, Replica(map[], []))
      modifies this, database, network, omnipaxos
      ensures Valid() && EndsStartup(id, initialLeader, events, used)
      ensures View() == Life(id, initialLeader, numClients, events, used)
      ensures network.handedToPeers == old(network.handedToPeers) +
        (if used == 0 then [] else ToldPeers(id, Startup(initialLeader), network.peers, events[used - 1]))
      ensures Announced([], network.handed, numClients, LifeTimes(id, initialLeader, events, used))
      ensures omnipaxos.proposed ==
        old(omnipaxos.proposed) + AllProposed(id, events[..used]) + AllProposed(id, events[used..])
      ensures KeepsPromises(id, View())
      ensures currentDecidedIdx + LifeLag(id, initialLeader, events, used) == |omnipaxos.decided|
    {
      hide KeepsPromises, OnEvents, AllProposed, Announced, Network.Valid;
      var started: bool;
      used, started := EstablishInitialLeader(events);
      if used > 0 {
        NobodyTold(id, Startup(initialLeader), network.peers, events[used - 1]);
      }
      EventLoop(events[used..]);
      LifeAnnounces(id, initialLeader, numClients, events, used);
      LifeIsExact(id, initialLeader, numClients, events, used);
    }
  }

  // ---------------------------------------------------------------- laws of message handling

  lemma {:induction false} StartSignalsHaveTimes(ms: seq<(NodeId, ClusterMessage)>)
    ensures HasStartSignal(ms) <==> StartTimes(ms) != []
  {
    if |ms| > 0 {
      var init := ms[..|ms| - 1];
      StartSignalsHaveTimes(init);
      if i :| 0 <= i < |init| && init[i].1.LeaderStartSignal? {
        assert ms[i] == init[i];
      }
    }
  }

  /** When an event starts the experiment, and what it then announces and tells. */
  lemma WhatStarts(me: NodeId, leader: NodeId, peers: seq<NodeId>, e: Event)
    ensures Announces(me, Startup(leader), e) != [] <==> IsStart(me, leader, e)
    ensures IsStart(me, leader, e) && e.Tick? ==>
      && Announces(me, Startup(leader), e) == [e.now + 2000]
      && ToldPeers(me, Startup(leader), peers, e) == ToEach(peers, LeaderStartSignal(e.now + 2000))
    ensures e.FromCluster? ==> Announces(me, Startup(leader), e) == StartTimes(e.batch)
    ensures !(IsStart(me, leader, e) && e.Tick?) ==> ToldPeers(me, Startup(leader), peers, e) == []
  {
    if e.FromCluster? {
      StartSignalsHaveTimes(e.batch);
    }
  }

  lemma NobodyTold(me: NodeId, phase: LoopPhase, peers: seq<NodeId>, e: Event)
    ensures Announces(me, phase, e) == [] ==> ToldPeers(me, phase, peers, e) == []
  {
  }

  lemma SignalReaches(s: Server, numClients: nat, t: Timestamp, c: ClientId)
    ensures var s0, s1 := StreamTo(s.replica.handed, c), StreamTo(Signal(s, numClients, t).replica.handed, c);
      && s0 <= s1 && Replies(s1) == Replies(s0)
      && Signals(s1) == Signals(s0) + (if 1 <= c <= numClients then AsSignals([t]) else [])
  {
    StreamConcat(s.replica.handed, StartSignals(numClients, t), c);
    StartSignalsReachEachOnce(numClients, t, c);
    var more := if 1 <= c <= numClients then [StartSignal(t)] else [];
    SplitConcat(StreamTo(s.replica.handed, c), more);
    assert AsSignals([t]) == [StartSignal(t)];
    assert Signals(more) == more && Replies(more) == [];
  }

  lemma CatchUpSignals(me: NodeId, s: Server, c: ClientId)
    ensures Signals(StreamTo(CatchUp(me, s).replica.handed, c)) == Signals(StreamTo(s.replica.handed, c))
  {
    if s.applied < |s.decided| {
      ExecuteSignals(me, s.replica, s.decided[s.applied..], c);
    }
  }

  lemma {:induction false} ExecuteSignals(me: NodeId, r: Replica, cmds: seq<Command>, c: ClientId)
    ensures Signals(StreamTo(ExecuteAll(me, r, cmds).handed, c)) == Signals(StreamTo(r.handed, c))
  {
    if |cmds| > 0 {
      var n := |cmds| - 1;
      ExecuteSignals(me, r, cmds[..n], c);
      var mid := ExecuteAll(me, r, cmds[..n]);
      HandingAReply(mid.handed, Handed(cmds[n].clientId, Reply(mid.db, cmds[n])), c);
      if cmds[n].coordinatorId != me {
        assert Execute(me, mid, cmds[n]).handed == mid.handed;
      }
    }
  }

  lemma MessageSignals(me: NodeId, numClients: nat, s: Server, m: ClusterMessage, c: ClientId)
    ensures Signals(StreamTo(OnClusterMessage(me, numClients, s, m).replica.handed, c)) ==
      Signals(StreamTo(s.replica.handed, c)) +
      (if m.LeaderStartSignal? && 1 <= c <= numClients then [StartSignal(m.time)] else [])
  {
    match m {
      case OmniPaxosMessage(learned) =>
        CatchUpSignals(me, Learns(s, learned), c);
      case LeaderStartSignal(t) =>
        SignalReaches(s, numClients, t, c);
        assert AsSignals([t]) == [StartSignal(t)];
    }
  }

  lemma {:induction false} BatchSignals(me: NodeId, numClients: nat, s: Server, ms: seq<(NodeId, ClusterMessage)>,
                                        c: ClientId)
    ensures Signals(StreamTo(OnClusterMessages(me, numClients, s, ms).replica.handed, c)) ==
      Signals(StreamTo(s.replica.handed, c)) + (if 1 <= c <= numClients then AsSignals(StartTimes(ms)) else [])
  {
    hide OnClusterMessage, Signals, StreamTo;
    if |ms| > 0 {
      var n := |ms| - 1;
      var times, m := StartTimes(ms[..n]), ms[n].1;
      BatchSignals(me, numClients, s, ms[..n], c);
      MessageSignals(me, numClients, OnClusterMessages(me, numClients, s, ms[..n]), m, c);
      if m.LeaderStartSignal? {
        assert AsSignals(times + [m.time]) == AsSignals(times) + [StartSignal(m.time)];
      }
    }
  }

  lemma NothingAnnounced(handed: seq<Handed>, numClients: nat)
    ensures Announced(handed, handed, numClients, [])
  {
    assert AsSignals([]) == [];
  }

  lemma AnnouncedAfterNothing(a: seq<Handed>, b: seq<Handed>, c: seq<Handed>, numClients: nat, times: seq<Timestamp>)
    requires Announced(a, b, numClients, []) && Announced(b, c, numClients, times)
    ensures Announced(a, c, numClients, times)
  {
    assert AsSignals([]) == [];
  }

  lemma SignalAnnounces(s: Server, numClients: nat, t: Timestamp)
    ensures Announced(s.replica.handed, Signal(s, numClients, t).replica.handed, numClients, [t])
  {
    forall c: ClientId { SignalReaches(s, numClients, t, c); }
  }

  lemma BatchAnnounces(me: NodeId, numClients: nat, s: Server, ms: seq<(NodeId, ClusterMessage)>)
    ensures Announced(s.replica.handed, OnClusterMessages(me, numClients, s, ms).replica.handed, numClients,
                      StartTimes(ms))
  {
    forall c: ClientId { BatchSignals(me, numClients, s, ms, c); }
  }

  /** Whatever the event, clients 1..numClients are handed exactly the start times it announces. */
  lemma EventAnnounces(me: NodeId, phase: LoopPhase, numClients: nat, s: Server, e: Event)
    ensures Announced(s.replica.handed, OnEvent(me, phase, numClients, s, e).replica.handed, numClients,
                      Announces(me, phase, e))
  {
    match e {
      case Tick(now, _, _) =>
        SignalAnnounces(s, numClients, now + SYNC_DELAY);
        NothingAnnounced(s.replica.handed, numClients);
      case FromCluster(batch) => BatchAnnounces(me, numClients, s, batch);
      case FromClients(_) => NothingAnnounced(s.replica.handed, numClients);
    }
  }

  lemma AnnouncedInTurn(a: seq<Handed>, b: seq<Handed>, c: seq<Handed>, numClients: nat,
                        first: seq<Timestamp>, second: seq<Timestamp>)
    requires Announced(a, b, numClients, first) && Announced(b, c, numClients, second)
    ensures Announced(a, c, numClients, first + second)
  {
    hide Signals, StreamTo, AsSignals;
    SignalsInTurn(first, second);
  }

  lemma SignalsInTurn(first: seq<Timestamp>, second: seq<Timestamp>)
    ensures AsSignals(first + second) == AsSignals(first) + AsSignals(second)
  {
  }

  lemma {:induction false} EventsAnnounce(me: NodeId, phase: LoopPhase, numClients: nat, s: Server, es: seq<Event>)
    ensures Announced(s.replica.handed, OnEvents(me, phase, numClients, s, es).replica.handed, numClients,
                      Times(me, phase, es))
  {
    hide Announced, Announces, OnEvent;
    if |es| == 0 {
      NothingAnnounced(s.replica.handed, numClients);
    } else {
      var n := |es| - 1;
      var mid := OnEvents(me, phase, numClients, s, es[..n]);
      EventsAnnounce(me, phase, numClients, s, es[..n]);
      EventAnnounces(me, phase, numClients, mid, es[n]);
      AnnouncedInTurn(s.replica.handed, mid.replica.handed, OnEvent(me, phase, numClients, mid, es[n]).replica.handed,
                      numClients, Times(me, phase, es[..n]), Announces(me, phase, es[n]));
    }
  }

  // ---------------------------------------------------------------- what a server keeps, and how far behind it is

  /** The entries of its decided log that a server has applied. */
  function Applied(s: Server): seq<Command> {
    if s.applied <= |s.decided| then s.decided[..s.applied] else s.decided
  }

  /** A replica is the replay of the log prefix it applied, and answered exactly the commands in it. */
  ghost predicate KeepsPromises(me: NodeId, s: Server) {
    && s.applied <= |s.decided|
    && s.replica.db == Replay(map[], KvCmds(Applied(s)))
    && forall c: ClientId :: AnswersExactly(Replies(StreamTo(s.replica.handed, c)), Applied(s), me, c)
  }

  lemma LearningKeepsPromises(me: NodeId, s: Server, learned: seq<Command>)
    requires KeepsPromises(me, s)
    ensures KeepsPromises(me, Learns(s, learned))
  {
    assert Applied(Learns(s, learned)) == Applied(s);
  }

  lemma CatchingUpKeepsPromises(me: NodeId, s: Server)
    requires KeepsPromises(me, s)
    ensures KeepsPromises(me, CatchUp(me, s))
    ensures CatchUp(me, s).decided == s.decided && CatchUp(me, s).applied == |s.decided|
    ensures forall c: ClientId :: StreamTo(s.replica.handed, c) <= StreamTo(CatchUp(me, s).replica.handed, c)
  {
    if s.applied < |s.decided| {
      var done, todo := s.decided[..s.applied], s.decided[s.applied..];
      assert done + todo == s.decided == s.decided[..|s.decided|];
      ExecuteKeepsPromises(me, s.replica, done, todo, 0);
      forall c: ClientId
        ensures AnswersExactly(Replies(StreamTo(CatchUp(me, s).replica.handed, c)), s.decided, me, c)
        ensures StreamTo(s.replica.handed, c) <= StreamTo(CatchUp(me, s).replica.handed, c)
      {
        ExecuteKeepsPromises(me, s.replica, done, todo, c);
      }
    }
  }

  lemma SignallingKeepsPromises(me: NodeId, s: Server, numClients: nat, t: Timestamp)
    requires KeepsPromises(me, s)
    ensures KeepsPromises(me, Signal(s, numClients, t))
  {
    var s' := Signal(s, numClients, t);
    forall c: ClientId
      ensures Replies(StreamTo(s'.replica.handed, c)) == Replies(StreamTo(s.replica.handed, c))
    {
      SignalReaches(s, numClients, t, c);
    }
  }

  predicate HasOmniPaxos(ms: seq<(NodeId, ClusterMessage)>) {
    exists i :: 0 <= i < |ms| && ms[i].1.OmniPaxosMessage?
  }

  /** However cluster messages are batched and interleaved, the server keeps its promises; a batch with at least
      one Omnipaxos message leaves it with everything applied that it knows, any other as far behind as it was. */
  lemma {:induction false} BatchesCatchUp(me: NodeId, numClients: nat, s: Server, ms: seq<(NodeId, ClusterMessage)>)
    requires KeepsPromises(me, s)
    ensures var s' := OnClusterMessages(me, numClients, s, ms);
      && KeepsPromises(me, s')
      && |s'.decided| == s'.applied + (if HasOmniPaxos(ms) then 0 else |s.decided| - s.applied)
  {
    hide StreamTo, Replies, AnswersExactly, CatchUp, Replay, StartSignals;
    if |ms| > 0 {
      var n := |ms| - 1;
      BatchesCatchUp(me, numClients, s, ms[..n]);
      var mid := OnClusterMessages(me, numClients, s, ms[..n]);
      assert HasOmniPaxos(ms) <==> HasOmniPaxos(ms[..n]) || ms[n].1.OmniPaxosMessage? by {
        LastOfBatch(ms);
      }
      match ms[n].1 {
        case OmniPaxosMessage(learned) =>
          LearningKeepsPromises(me, mid, learned);
          CatchingUpKeepsPromises(me, Learns(mid, learned));
        case LeaderStartSignal(t) =>
          SignallingKeepsPromises(me, mid, numClients, t);
      }
    }
  }

  lemma LastOfBatch(ms: seq<(NodeId, ClusterMessage)>)
    requires |ms| > 0
    ensures HasOmniPaxos(ms) <==> HasOmniPaxos(ms[..|ms| - 1]) || ms[|ms| - 1].1.OmniPaxosMessage?
  {
    var init := ms[..|ms| - 1];
    if HasOmniPaxos(init) {
      var i :| 0 <= i < |init| && init[i].1.OmniPaxosMessage?;
      assert ms[i] == init[i];
    }
  }

  /** How far behind an event leaves a server that was `lag` entries behind. */
  function LagAfter(me: NodeId, phase: LoopPhase, lag: nat, e: Event): nat {
    if e.FromCluster? && HasOmniPaxos(e.batch) then 0 else lag + |LearnedAside(me, phase, e)|
  }

  /** The entries learned outside messages since the last Omnipaxos message, `lag` to begin with. */
  function Lag(me: NodeId, phase: LoopPhase, lag: nat, es: seq<Event>): nat {
    if |es| == 0 then lag else LagAfter(me, phase, Lag(me, phase, lag, es[..|es| - 1]), es[|es| - 1])
  }

  lemma EventIsExact(me: NodeId, phase: LoopPhase, numClients: nat, s: Server, e: Event)
    requires KeepsPromises(me, s)
    ensures var s' := OnEvent(me, phase, numClients, s, e);
      KeepsPromises(me, s') && |s'.decided| == s'.applied + LagAfter(me, phase, |s.decided| - s.applied, e)
  {
    hide KeepsPromises, HasOmniPaxos, StartSignals, OnClusterMessages;
    PromisesAreOfApplied(me, s);
    match e {
      case Tick(now, _, _) =>
        SignallingKeepsPromises(me, s, numClients, now + SYNC_DELAY);
        LearningKeepsPromises(me, s, LearnedAside(me, phase, e));
      case FromCluster(batch) => BatchesCatchUp(me, numClients, s, batch);
      case FromClients(_) => LearningKeepsPromises(me, s, LearnedAside(me, phase, e));
    }
  }

  lemma PromisesAreOfApplied(me: NodeId, s: Server)
    requires KeepsPromises(me, s)
    ensures s.applied <= |s.decided|
  {
  }

  lemma {:induction false} EventsAreExact(me: NodeId, phase: LoopPhase, numClients: nat, s: Server, es: seq<Event>)
    requires KeepsPromises(me, s)
    ensures var s' := OnEvents(me, phase, numClients, s, es);
      KeepsPromises(me, s') && |s'.decided| == s'.applied + Lag(me, phase, |s.decided| - s.applied, es)
  {
    hide KeepsPromises, OnEvent, LagAfter;
    PromisesAreOfApplied(me, s);
    if |es| > 0 {
      EventsAreExact(me, phase, numClients, s, es[..|es| - 1]);
      EventIsExact(me, phase, numClients, OnEvents(me, phase, numClients, s, es[..|es| - 1]), es[|es| - 1]);
    }
  }

  /** A server's whole life: the first `used` events in the start-up loop, the others in the main loop. */
  function Life(me: NodeId, leader: NodeId, numClients: nat, es: seq<Event>, used: nat): Server
    requires used <= |es|
  {
    var ready := OnEvents(me, Startup(leader), numClients, Server([], 0, Replica(map[], [])), es[..used]);
    OnEvents(me, MainLoop, numClients, ready, es[used..])
  }

  function LifeLag(me: NodeId, leader: NodeId, es: seq<Event>, used: nat): nat
    requires used <= |es|
  {
    Lag(me, MainLoop, Lag(me, Startup(leader), 0, es[..used]), es[used..])
  }

  /** Whatever happens to a server, between events its database is the replay of what it applied and its clients
      were answered exactly that; and it has applied all it knows except what Omnipaxos learned outside message
      handling since the last Omnipaxos message. In particular it is up to date exactly if that was nothing. */
  lemma LifeIsExact(me: NodeId, leader: NodeId, numClients: nat, es: seq<Event>, used: nat)
    requires used <= |es|
    ensures var s := Life(me, leader, numClients, es, used);
      && KeepsPromises(me, s) && |s.decided| == s.applied + LifeLag(me, leader, es, used)
      && (Applied(s) == s.decided <==> LifeLag(me, leader, es, used) == 0)
  {
    hide KeepsPromises, OnEvents, Lag;
    var start := Server([], 0, Replica(map[], []));
    NewServerKeepsPromises(me);
    EventsAreExact(me, Startup(leader), numClients, start, es[..used]);
    var ready := OnEvents(me, Startup(leader), numClients, start, es[..used]);
    EventsAreExact(me, MainLoop, numClients, ready, es[used..]);
  }

  /** Over its whole life a server hands clients 1..numClients exactly the start times it announces, in order. */
  lemma LifeAnnounces(me: NodeId, leader: NodeId, numClients: nat, es: seq<Event>, used: nat)
    requires used <= |es|
    ensures Announced([], Life(me, leader, numClients, es, used).replica.handed, numClients,
                      LifeTimes(me, leader, es, used))
  {
    hide Announced, OnEvents, Times;
    var start := Server([], 0, Replica(map[], []));
    var ready := OnEvents(me, Startup(leader), numClients, start, es[..used]);
    var end := OnEvents(me, MainLoop, numClients, ready, es[used..]);
    EventsAnnounce(me, Startup(leader), numClients, start, es[..used]);
    EventsAnnounce(me, MainLoop, numClients, ready, es[used..]);
    AnnouncedInTurn([], ready.replica.handed, end.replica.handed, numClients,
                    Times(me, Startup(leader), es[..used]), Times(me, MainLoop, es[used..]));
  }

  /** Such a server does occur: the leader's first tick may teach it an entry that it does not apply. */
  lemma ATickLeavesBehind(me: NodeId, numClients: nat, now: Timestamp, c: Command)
    ensures var s := Life(me, me, numClients, [Tick(now, None, [c])], 1); s.decided == [c] && s.applied == 0
  {
    var es := [Tick(now, None, [c])];
    var start := Server([], 0, Replica(map[], []));
    assert es[..1] == es && es[..0] == [] && es[1..] == [];
    assert OnEvents(me, Startup(me), numClients, start, es) == OnEvent(me, Startup(me), numClients, start, es[0]);
    assert start.decided + [c] == [c];
  }

  lemma NewServerKeepsPromises(me: NodeId)
    ensures KeepsPromises(me, Server([], 0, Replica(map[], [])))
  {
  }
}
