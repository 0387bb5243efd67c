/** The whole system as a state machine: clients, servers, and the replicated log between them.

    Omnipaxos is represented by what it is assumed to guarantee: there is one append-only log; an entry is
    decided at most once and only after it was appended; each server knows a prefix of that log, which never
    shrinks. Links are first-in first-out and may stop delivering at any time. */
module Cluster {
  import opened KV
  import opened Replicas
  import opened Servers
  import opened Clients

  /** The shared initial leader, and how many clients each server is configured for. */
  datatype Config = Config(leader: NodeId, numClients: map<NodeId, nat>)

  /** Client ids are local to the server a client is connected to. */
  datatype ClientKey = ClientKey(server: NodeId, id: ClientId)

  /** What a client sent and how much of it its server took in; how much it received of the stream its
      server handed over. Benchmark clients follow Clients.ClientState; any other client, such as the
      gateway, may send anything at any time. */
  datatype Session = Session(bench: bool, sent: seq<ClientMessage>, ingested: nat, received: nat, state: ClientState)

  /** `order[p]` is the proposal, an index into `appended`, that became log entry `p`. */
  datatype State = State(
    appended: seq<Command>,
    order: seq<nat>,
    log: seq<Command>,
    servers: map<NodeId, Server>,
    clients: map<ClientKey, Session>,
    startTime: Option<Timestamp>,
    inbox: map<NodeId, seq<Timestamp>>,
    announced: set<NodeId>)

  datatype Step =
    | Send(k: ClientKey, msg: ClientMessage, isWrite: bool, now: Timestamp)
    | Ingest(k: ClientKey)
    | Decide(proposal: nat)
    | Learn(n: NodeId, upTo: nat)
    | ApplyDecided(n: NodeId)
    | LeaderStart(t: Timestamp)
    | FollowerStart(n: NodeId)
    | Deliver(k: ClientKey, now: Timestamp)
    | Finish(k: ClientKey)

  function Stream(st: State, k: ClientKey): seq<ServerMessage>
    requires k.server in st.servers
  {
    StreamTo(st.servers[k.server].replica.handed, k.id)
  }

  function ToCommand(k: ClientKey, m: ClientMessage): Command {
    Command(k.id, k.server, m.id, m.kvCmd)
  }

  predicate Init(cfg: Config, st: State) {
    && cfg.leader in cfg.numClients
    && st.appended == [] && st.order == [] && st.log == []
    && st.servers == (map n | n in cfg.numClients :: Server([], 0, Replica(map[], [])))
    && st.inbox == (map n | n in cfg.numClients :: [])
    && st.startTime == None && st.announced == {}
    && (forall k :: k in st.clients ==> k.server in cfg.numClients)
    && (forall k :: k in st.clients ==>
          st.clients[k] == Session(st.clients[k].bench, [], 0, 0, ClientState(Waiting, Data([], 0))))
  }

  predicate Enabled(cfg: Config, st: State, step: Step) {
    && st.servers.Keys == cfg.numClients.Keys == st.inbox.Keys
    && (forall k :: k in st.clients ==> k.server in st.servers)
    && match step
       case Send(k, msg, isWrite, _) =>
         k in st.clients && (st.clients[k].bench ==>
           st.clients[k].state.phase == Running && msg == RequestNo(|st.clients[k].state.data.requests|, isWrite))
       case Ingest(k) => k in st.clients && st.clients[k].ingested < |st.clients[k].sent|
       case Decide(i) => i < |st.appended| && i !in st.order
       case Learn(n, upTo) => n in st.servers && |st.servers[n].decided| <= upTo <= |st.log|
       case ApplyDecided(n) => n in st.servers
       case LeaderStart(t) => cfg.leader in st.servers && st.startTime == None
       case FollowerStart(n) => n in st.inbox && st.inbox[n] != []
       case Deliver(k, _) =>
         && k in st.clients && st.clients[k].received < |Stream(st, k)|
         && st.clients[k].state.phase !in {Finished, Panicked}
       case Finish(k) => k in st.clients && st.clients[k].state.phase == Running
  }

  function Do(cfg: Config, st: State, step: Step): State
    requires Enabled(cfg, st, step)
  {
    match step
    case Send(k, msg, isWrite, now) =>
      var c := st.clients[k];
      var state := if c.bench then c.state.(data := WithRequest(c.state.data, now, isWrite)) else c.state;
      st.(clients := st.clients[k := c.(sent := c.sent + [msg], state := state)])
    case Ingest(k) =>
      var c := st.clients[k];
      st.(appended := st.appended + [ToCommand(k, c.sent[c.ingested])],
          clients := st.clients[k := c.(ingested := c.ingested + 1)])
    case Decide(i) => st.(order := st.order + [i], log := st.log + [st.appended[i]])
    case Learn(n, upTo) => st.(servers := st.servers[n := st.servers[n].(decided := st.log[..upTo])])
    case ApplyDecided(n) => st.(servers := st.servers[n := CatchUp(n, st.servers[n])])
    case LeaderStart(t) =>
      st.(startTime := Some(t),
          announced := st.announced + {cfg.leader},
          inbox := map n | n in st.inbox :: if n == cfg.leader then st.inbox[n] else st.inbox[n] + [t],
          servers := st.servers[cfg.leader := Signal(st.servers[cfg.leader], cfg.numClients[cfg.leader], t)])
    case FollowerStart(n) =>
      st.(announced := st.announced + {n},
          inbox := st.inbox[n := st.inbox[n][1..]],
          servers := st.servers[n := Signal(st.servers[n], cfg.numClients[n], st.inbox[n][0])])
    case Deliver(k, now) =>
      var c := st.clients[k];
      var state := if c.bench then OnMessage(c.state, Stream(st, k)[c.received], now) else c.state;
      st.(clients := st.clients[k := c.(received := c.received + 1, state := state)])
    case Finish(k) =>
      st.(clients := st.clients[k := st.clients[k].(state := st.clients[k].state.(phase := Finished))])
  }

  // ---------------------------------------------------------------- the invariant

  /** The messages of client `k` among the proposals, in the order they were appended. */
  function AppendedBy(appended: seq<Command>, k: ClientKey): seq<ClientMessage> {
    if |appended| == 0 then []
    else
      var a := appended[|appended| - 1];
      AppendedBy(appended[..|appended| - 1], k) + (if IsBy(a, k) then [Append(a.id, a.kvCmd)] else [])
  }

  predicate IsBy(c: Command, k: ClientKey) {
    c.coordinatorId == k.server && c.clientId == k.id
  }

  /** Each log entry is a proposal, and no proposal is decided twice. */
  predicate LogOk(appended: seq<Command>, order: seq<nat>, log: seq<Command>) {
    && |order| == |log|
    && (forall p :: 0 <= p < |log| ==> order[p] < |appended| && log[p] == appended[order[p]])
    && (forall p, q :: 0 <= p < q < |log| ==> order[p] != order[q])
  }

  /** The start signals handed out so far carry the one start time, one for each configured client of
      each server that has announced it. */
  ghost predicate SignalsOk(numClients: nat, announced: bool, startTime: Option<Timestamp>, handed: seq<Handed>) {
    && (announced ==> startTime.Some?)
    && forall c: ClientId :: Signals(StreamTo(handed, c)) ==
         if announced && 1 <= c <= numClients then [StartSignal(startTime.value)] else []
  }

  /** The leader's start signal is still on its way to exactly the followers that have not announced it. */
  predicate InboxOk(leader: NodeId, startTime: Option<Timestamp>, announced: set<NodeId>,
                    inbox: map<NodeId, seq<Timestamp>>) {
    && (startTime.None? ==> announced == {})
    && (startTime.Some? ==> leader in announced)
    && (forall n :: n in inbox && startTime.Some? && n != leader && n !in announced ==> inbox[n] == [startTime.value])
    && (forall n :: n in inbox && (startTime.None? || n == leader || n in announced) ==> inbox[n] == [])
  }

  predicate HasReply(stream: seq<ServerMessage>, id: CommandId) {
    exists m :: m in Replies(stream) && !m.StartSignal? && m.id == id
  }

  /** A benchmark client numbers its requests 0, 1, 2, ..., with the keys and kinds recorded; sends nothing before
      it received a start signal as its first message; never panics; and its bookkeeping matches the replies it
      received. */
  predicate BenchOk(c: Session, stream: seq<ServerMessage>)
    requires c.received <= |stream|
  {
    var data := c.state.data;
    && |data.requests| == |c.sent|
    && (forall m :: 0 <= m < |c.sent| ==> c.sent[m].id == m && c.sent[m] == RequestNo(m, data.requests[m].write))
    && c.state.phase != Panicked
    && (c.state.phase == Waiting ==> c.received == 0 && c.sent == [])
    && (c.state.phase != Waiting ==> c.received > 0 && stream[0].StartSignal?)
    && data.responseCount == |Replies(stream[..c.received])|
    && (forall m :: 0 <= m < |c.sent| ==>
          (data.requests[m].responseTime.Some? <==> HasReply(stream[..c.received], m)))
  }

  predicate ClientOk(k: ClientKey, c: Session, appended: seq<Command>, stream: seq<ServerMessage>) {
    && c.ingested <= |c.sent| && c.received <= |stream|
    && AppendedBy(appended, k) == c.sent[..c.ingested]
    && (c.bench ==> BenchOk(c, stream))
  }

  predicate Shape(cfg: Config, st: State) {
    && cfg.leader in cfg.numClients
    && st.servers.Keys == cfg.numClients.Keys == st.inbox.Keys
    && (forall k :: k in st.clients ==> k.server in st.servers)
  }

  ghost predicate Inv(cfg: Config, st: State) {
    && Shape(cfg, st)
    && LogOk(st.appended, st.order, st.log)
    && (forall n :: n in st.servers ==> st.servers[n].decided <= st.log && KeepsPromises(n, st.servers[n]))
    && (forall n :: n in st.servers ==>
          SignalsOk(cfg.numClients[n], n in st.announced, st.startTime, st.servers[n].replica.handed))
    && InboxOk(cfg.leader, st.startTime, st.announced, st.inbox)
    && (forall k :: k in st.clients ==> ClientOk(k, st.clients[k], st.appended, Stream(st, k)))
  }

  lemma InitInv(cfg: Config, st: State)
    requires Init(cfg, st)
    ensures Inv(cfg, st)
  {
  }
}
