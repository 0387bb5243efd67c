/** Every step of the cluster keeps its invariant. */
module ClusterSafety {
  import opened KV
  import opened Replicas
  import opened Servers
  import opened Clients
  import opened Cluster

  // ---------------------------------------------------------------- which replies a client can see

  lemma {:induction false} RepliesAreReplies(stream: seq<ServerMessage>)
    ensures forall m :: m in Replies(stream) <==> m in stream && !m.StartSignal?
    ensures |Signals(stream)| + |Replies(stream)| == |stream|
  {
    if |stream| > 0 {
      RepliesAreReplies(stream[..|stream| - 1]);
      assert stream == stream[..|stream| - 1] + [stream[|stream| - 1]];
    }
  }

  /** The place of proposal `i` among the messages of its client. */
  function Rank(appended: seq<Command>, i: nat, k: ClientKey): nat
    requires i <= |appended|
  {
    |AppendedBy(appended[..i], k)|
  }

  lemma {:induction false} RankIsPlace(appended: seq<Command>, i: nat, k: ClientKey)
    requires i < |appended| && IsBy(appended[i], k)
    ensures Rank(appended, i, k) < |AppendedBy(appended, k)|
    ensures AppendedBy(appended, k)[Rank(appended, i, k)] == Append(appended[i].id, appended[i].kvCmd)
    ensures forall j :: i < j < |appended| ==> Rank(appended, i, k) < Rank(appended, j, k)
  {
    var n := |appended| - 1;
    var init := appended[..n];
    if i < n {
      RankIsPlace(init, i, k);
      assert init[..i] == appended[..i];
      forall j | i < j < |appended| ensures Rank(appended, i, k) < Rank(appended, j, k) {
        if j < n {
          assert init[..j] == appended[..j];
          assert Rank(init, i, k) < Rank(init, j, k);
        } else {
          assert Rank(appended, j, k) == |AppendedBy(init, k)|;
        }
      }
    }
  }

  /** The part of the invariant that concerns one client: the log, its server, and itself. */
  ghost predicate Consistent(st: State, k: ClientKey) {
    && LogOk(st.appended, st.order, st.log) && k.server in st.servers && k in st.clients
    && st.servers[k.server].decided <= st.log && KeepsPromises(k.server, st.servers[k.server])
    && ClientOk(k, st.clients[k], st.appended, Stream(st, k))
  }

  /** The r-th reply of a benchmark client's stream answers one of its ingested requests, each once. */
  lemma ReplyIdsAreRequests(st: State, k: ClientKey, r: nat)
    requires Consistent(st, k)
    requires r < |Replies(Stream(st, k))|
    ensures var s := st.servers[k.server]; var ps := Positions(Applied(s), k.server, k.id);
      && r < |ps| && ps[r] < s.applied && IsBy(st.log[ps[r]], k)
      && !Replies(Stream(st, k))[r].StartSignal? && Replies(Stream(st, k))[r].id == st.log[ps[r]].id
      && var i := Rank(st.appended, st.order[ps[r]], k);
         i < st.clients[k].ingested && st.clients[k].sent[i] == Append(st.log[ps[r]].id, st.log[ps[r]].kvCmd)
  {
    var s := st.servers[k.server];
    var done := Applied(s);
    var ps := Positions(done, k.server, k.id);
    assert AnswersExactly(Replies(Stream(st, k)), done, k.server, k.id);
    PositionsAreRight(done, k.server, k.id);
    assert ps[r] in ps;
    assert done[ps[r]] == st.log[ps[r]];
    RankIsPlace(st.appended, st.order[ps[r]], k);
  }

  lemma ReplyIdsDiffer(st: State, k: ClientKey, q: nat, r: nat)
    requires Consistent(st, k) && st.clients[k].bench
    requires q < r < |Replies(Stream(st, k))|
    ensures !Replies(Stream(st, k))[q].StartSignal? && !Replies(Stream(st, k))[r].StartSignal?
    ensures Replies(Stream(st, k))[q].id != Replies(Stream(st, k))[r].id
  {
    ReplyIdsAreRequests(st, k, q);
    ReplyIdsAreRequests(st, k, r);
    var s := st.servers[k.server];
    var ps := Positions(Applied(s), k.server, k.id);
    PositionsAreRight(Applied(s), k.server, k.id);
    var i, j := st.order[ps[q]], st.order[ps[r]];
    RankIsPlace(st.appended, i, k);
    RankIsPlace(st.appended, j, k);
    assert i != j;
  }

  lemma BenchReplyIds(st: State, k: ClientKey)
    requires Consistent(st, k) && st.clients[k].bench
    ensures forall m :: m in Replies(Stream(st, k)) ==> !m.StartSignal? && m.id < st.clients[k].ingested
  {
    forall m | m in Replies(Stream(st, k))
      ensures !m.StartSignal? && m.id < st.clients[k].ingested
    {
      var r :| 0 <= r < |Replies(Stream(st, k))| && Replies(Stream(st, k))[r] == m;
      ReplyIdsAreRequests(st, k, r);
    }
  }

  // ---------------------------------------------------------------- steps of clients

  /** A client is not disturbed by its stream growing. */
  lemma StreamMayGrow(k: ClientKey, c: Session, appended: seq<Command>, stream: seq<ServerMessage>,
                      stream': seq<ServerMessage>)
    requires ClientOk(k, c, appended, stream) && stream <= stream'
    ensures ClientOk(k, c, appended, stream')
  {
    assert stream'[..c.received] == stream[..c.received];
  }

  lemma SendOk(k: ClientKey, c: Session, appended: seq<Command>, stream: seq<ServerMessage>, msg: ClientMessage,
               now: Timestamp, isWrite: bool)
    requires ClientOk(k, c, appended, stream)
    requires c.bench ==> c.state.phase == Running && msg == RequestNo(|c.state.data.requests|, isWrite)
    requires c.bench ==> forall m :: m in Replies(stream) ==> !m.StartSignal? && m.id < c.ingested
    ensures var state := if c.bench then c.state.(data := WithRequest(c.state.data, now, isWrite)) else c.state;
      ClientOk(k, c.(sent := c.sent + [msg], state := state), appended, stream)
  {
    hide Replies, AppendedBy;
    assert (c.sent + [msg])[..c.ingested] == c.sent[..c.ingested];
    if c.bench {
      RepliesSoFar(stream, c.received);
      assert !HasReply(stream[..c.received], |c.sent|);
    }
  }

  lemma RepliesSoFar(stream: seq<ServerMessage>, n: nat)
    requires n <= |stream|
    ensures forall m :: m in Replies(stream[..n]) ==> m in Replies(stream)
  {
    hide Replies;
    assert stream == stream[..n] + stream[n..];
    SplitConcat(stream[..n], stream[n..]);
  }

  lemma IngestOk(k: ClientKey, c: Session, appended: seq<Command>, stream: seq<ServerMessage>)
    requires ClientOk(k, c, appended, stream) && c.ingested < |c.sent|
    ensures ClientOk(k, c.(ingested := c.ingested + 1), appended + [ToCommand(k, c.sent[c.ingested])], stream)
  {
    var appended' := appended + [ToCommand(k, c.sent[c.ingested])];
    assert appended'[..|appended|] == appended;
    assert c.sent[..c.ingested + 1] == c.sent[..c.ingested] + [c.sent[c.ingested]];
  }

  lemma OthersIngest(k: ClientKey, c: Session, appended: seq<Command>, stream: seq<ServerMessage>, cmd: Command)
    requires ClientOk(k, c, appended, stream) && !IsBy(cmd, k)
    ensures ClientOk(k, c, appended + [cmd], stream)
  {
    assert (appended + [cmd])[..|appended|] == appended;
  }

  /** A delivery to a waiting client is its start signal: it has sent nothing, so nothing answers it. */
  lemma FirstDeliveryIsStart(st: State, k: ClientKey)
    requires Consistent(st, k) && st.clients[k].sent == []
    ensures Replies(Stream(st, k)) == []
    ensures forall m :: m in Stream(st, k) ==> m.StartSignal?
  {
    if |Replies(Stream(st, k))| > 0 {
      ReplyIdsAreRequests(st, k, 0);
    }
    RepliesAreReplies(Stream(st, k));
  }

  lemma RepliesAround(got: seq<ServerMessage>, m: ServerMessage, rest: seq<ServerMessage>)
    ensures Replies(got + [m]) == Replies(got) + (if m.StartSignal? then [] else [m])
    ensures Replies(got + [m] + rest) == Replies(got + [m]) + Replies(rest)
  {
    assert (got + [m])[..|got|] == got;
    SplitConcat(got + [m], rest);
  }

  lemma SplitAt(stream: seq<ServerMessage>, n: nat)
    requires n < |stream|
    ensures stream[..n + 1] == stream[..n] + [stream[n]]
    ensures stream == stream[..n] + [stream[n]] + stream[n + 1..]
  {
  }

  lemma RepliesUpTo(stream: seq<ServerMessage>, n: nat)
    requires n < |stream|
    ensures Replies(stream[..n + 1]) == Replies(stream[..n]) + (if stream[n].StartSignal? then [] else [stream[n]])
    ensures Replies(stream[..n + 1]) <= Replies(stream)
  {
    hide Replies;
    SplitAt(stream, n);
    RepliesAround(stream[..n], stream[n], stream[n + 1..]);
  }

  lemma DeliverOk(st: State, k: ClientKey, now: Timestamp)
    requires Consistent(st, k) && st.clients[k].bench
    requires st.clients[k].received < |Stream(st, k)| && st.clients[k].state.phase in {Waiting, Running}
    ensures var c, stream := st.clients[k], Stream(st, k);
      BenchOk(c.(received := c.received + 1, state := OnMessage(c.state, stream[c.received], now)), stream)
  {
    hide LogOk, KeepsPromises, Replies, StreamTo, AppendedBy;
    var c, stream := st.clients[k], Stream(st, k);
    RepliesUpTo(stream, c.received);
    if c.state.phase == Waiting {
      FirstDeliveryIsStart(st, k);
      assert stream[c.received] in stream;
    } else if !stream[c.received].StartSignal? {
      NextReplyIsFresh(st, k);
      ReplyCounts(c, stream, stream[c.received], now);
    }
  }

  /** The next reply a benchmark client can receive answers a request it sent, not answered before. */
  lemma NextReplyIsFresh(st: State, k: ClientKey)
    requires Consistent(st, k) && st.clients[k].bench && st.clients[k].received < |Stream(st, k)|
    requires !Stream(st, k)[st.clients[k].received].StartSignal?
    ensures var c, m := st.clients[k], Stream(st, k)[st.clients[k].received];
      && m.id < |c.sent|
      && forall x :: x in Replies(Stream(st, k)[..c.received]) ==> !x.StartSignal? && x.id != m.id
  {
    var c, stream := st.clients[k], Stream(st, k);
    var got, m := stream[..c.received], stream[c.received];
    RepliesUpTo(stream, c.received);
    var r := |Replies(got)|;
    assert Replies(stream[..c.received + 1])[r] == m;
    assert Replies(stream)[r] == m;
    ReplyIdsAreRequests(st, k, r);
    forall x | x in Replies(got) ensures !x.StartSignal? && x.id != m.id {
      var q :| 0 <= q < r && Replies(got)[q] == x;
      ReplyIdsDiffer(st, k, q, r);
    }
  }

  /** One more reply, to a request not answered before, keeps the bookkeeping right. */
  lemma ReplyCounts(c: Session, stream: seq<ServerMessage>, m: ServerMessage, now: Timestamp)
    requires c.received < |stream| && BenchOk(c, stream) && c.state.phase == Running
    requires m == stream[c.received] && !m.StartSignal? && m.id < |c.sent|
    requires Replies(stream[..c.received + 1]) == Replies(stream[..c.received]) + [m]
    requires forall x :: x in Replies(stream[..c.received]) ==> !x.StartSignal? && x.id != m.id
    ensures BenchOk(c.(received := c.received + 1, state := OnMessage(c.state, m, now)), stream)
  {
    var before, after := stream[..c.received], stream[..c.received + 1];
    assert m in Replies(after);
    forall i | 0 <= i < |c.sent|
      ensures HasReply(after, i) <==> HasReply(before, i) || i == m.id
    {
      if HasReply(before, i) {
        var x :| x in Replies(before) && !x.StartSignal? && x.id == i;
        assert x in Replies(after);
      }
    }
  }

  // ---------------------------------------------------------------- steps of servers

  lemma CatchUpSignalsOk(n: NodeId, s: Server, numClients: nat, announced: bool, startTime: Option<Timestamp>)
    requires SignalsOk(numClients, announced, startTime, s.replica.handed)
    ensures SignalsOk(numClients, announced, startTime, CatchUp(n, s).replica.handed)
  {
    forall c: ClientId { CatchUpSignals(n, s, c); }
  }

  lemma LearnOk(n: NodeId, s: Server, log: seq<Command>, upTo: nat)
    requires KeepsPromises(n, s) && s.decided <= log && |s.decided| <= upTo <= |log|
    ensures KeepsPromises(n, s.(decided := log[..upTo]))
  {
    assert log[..upTo] == s.decided + log[|s.decided|..upTo];
    LearningKeepsPromises(n, s, log[|s.decided|..upTo]);
  }

  lemma SignalOk(n: NodeId, s: Server, numClients: nat, before: Option<Timestamp>, t: Timestamp)
    requires KeepsPromises(n, s) && SignalsOk(numClients, false, before, s.replica.handed)
    ensures KeepsPromises(n, Signal(s, numClients, t))
    ensures SignalsOk(numClients, true, Some(t), Signal(s, numClients, t).replica.handed)
    ensures Signal(s, numClients, t).decided == s.decided
    ensures forall c: ClientId :: StreamTo(s.replica.handed, c) <= StreamTo(Signal(s, numClients, t).replica.handed, c)
  {
    hide KeepsPromises;
    SignallingKeepsPromises(n, s, numClients, t);
    var s' := Signal(s, numClients, t);
    forall c: ClientId
      ensures StreamTo(s.replica.handed, c) <= StreamTo(s'.replica.handed, c)
      ensures Signals(StreamTo(s'.replica.handed, c)) == if 1 <= c <= numClients then [StartSignal(t)] else []
    {
      SignalReaches(s, numClients, t, c);
      assert AsSignals([t]) == [StartSignal(t)];
    }
  }

  /** While the start time is unknown nobody has announced it, so choosing it changes no server's duty. */
  lemma SignalsBeforeStart(numClients: nat, startTime: Option<Timestamp>, t: Timestamp, handed: seq<Handed>)
    requires SignalsOk(numClients, false, startTime, handed)
    ensures SignalsOk(numClients, false, Some(t), handed)
  {
  }

  /** A step that only changes server `n`, extending what it handed over, disturbs no client. */
  lemma ServerStepKeepsClients(cfg: Config, st: State, st': State, n: NodeId)
    requires Inv(cfg, st) && n in st.servers
    requires st'.clients == st.clients && st'.appended == st.appended
    requires st'.servers.Keys == st.servers.Keys
    requires forall m :: m in st.servers && m != n ==> st'.servers[m] == st.servers[m]
    requires forall c: ClientId ::
      StreamTo(st.servers[n].replica.handed, c) <= StreamTo(st'.servers[n].replica.handed, c)
    ensures forall k :: k in st'.clients ==> ClientOk(k, st'.clients[k], st'.appended, Stream(st', k))
  {
    forall k | k in st'.clients
      ensures ClientOk(k, st'.clients[k], st'.appended, Stream(st', k))
    {
      StreamMayGrow(k, st.clients[k], st.appended, Stream(st, k), Stream(st', k));
    }
  }

  // ---------------------------------------------------------------- every step

  lemma SendKeepsInv(cfg: Config, st: State, step: Step)
    requires Inv(cfg, st) && step.Send? && Enabled(cfg, st, step)
    ensures Inv(cfg, Do(cfg, st, step))
  {
    hide KeepsPromises, SignalsOk, LogOk, ClientOk, BenchOk, AppendedBy, StreamTo, Replies, Signals;
    var k, c := step.k, st.clients[step.k];
    if c.bench {
      BenchReplyIds(st, k);
    }
    SendOk(k, c, st.appended, Stream(st, k), step.msg, step.now, step.isWrite);
  }

  lemma IngestKeepsInv(cfg: Config, st: State, k: ClientKey)
    requires Inv(cfg, st) && Enabled(cfg, st, Ingest(k))
    ensures Inv(cfg, Do(cfg, st, Ingest(k)))
  {
    hide KeepsPromises, SignalsOk, LogOk, ClientOk, BenchOk, AppendedBy, StreamTo, Replies, Signals;
    var st', c := Do(cfg, st, Ingest(k)), st.clients[k];
    AppendKeepsLog(st.appended, ToCommand(k, c.sent[c.ingested]), st.order, st.log);
    IngestOk(k, c, st.appended, Stream(st, k));
    forall j | j in st.clients && j != k
      ensures ClientOk(j, st.clients[j], st'.appended, Stream(st, j))
    {
      OthersIngest(j, st.clients[j], st.appended, Stream(st, j), ToCommand(k, c.sent[c.ingested]));
    }
  }

  lemma AppendKeepsLog(appended: seq<Command>, cmd: Command, order: seq<nat>, log: seq<Command>)
    requires LogOk(appended, order, log)
    ensures LogOk(appended + [cmd], order, log)
  {
  }

  lemma DeliverKeepsInv(cfg: Config, st: State, k: ClientKey, now: Timestamp)
    requires Inv(cfg, st) && Enabled(cfg, st, Deliver(k, now))
    ensures Inv(cfg, Do(cfg, st, Deliver(k, now)))
  {
    hide KeepsPromises, SignalsOk, LogOk, BenchOk, AppendedBy, StreamTo, Replies, Signals;
    if st.clients[k].bench {
      var phase := st.clients[k].state.phase;
      assert phase != Finished && phase != Panicked;
      assert phase.Waiting? || phase.Running?;
      DeliverOk(st, k, now);
    }
  }

  lemma LearnKeepsInv(cfg: Config, st: State, n: NodeId, upTo: nat)
    requires Inv(cfg, st) && Enabled(cfg, st, Learn(n, upTo))
    ensures Inv(cfg, Do(cfg, st, Learn(n, upTo)))
  {
    hide KeepsPromises, SignalsOk, LogOk, InboxOk, ClientOk, StreamTo;
    LearnOk(n, st.servers[n], st.log, upTo);
    ServerStepKeepsClients(cfg, st, Do(cfg, st, Learn(n, upTo)), n);
  }

  lemma ApplyKeepsInv(cfg: Config, st: State, n: NodeId)
    requires Inv(cfg, st) && Enabled(cfg, st, ApplyDecided(n))
    ensures Inv(cfg, Do(cfg, st, ApplyDecided(n)))
  {
    hide KeepsPromises, SignalsOk, LogOk, InboxOk, ClientOk, StreamTo, CatchUp;
    CatchingUpKeepsPromises(n, st.servers[n]);
    CatchUpSignalsOk(n, st.servers[n], cfg.numClients[n], n in st.announced, st.startTime);
    ServerStepKeepsClients(cfg, st, Do(cfg, st, ApplyDecided(n)), n);
  }

  lemma LeaderInboxOk(leader: NodeId, t: Timestamp, announced: set<NodeId>, inbox: map<NodeId, seq<Timestamp>>)
    requires InboxOk(leader, None, announced, inbox)
    ensures announced == {}
    ensures InboxOk(leader, Some(t), announced + {leader},
                    map n | n in inbox :: if n == leader then inbox[n] else inbox[n] + [t])
  {
  }

  lemma FollowerInboxOk(leader: NodeId, startTime: Option<Timestamp>, announced: set<NodeId>,
                        inbox: map<NodeId, seq<Timestamp>>, n: NodeId)
    requires InboxOk(leader, startTime, announced, inbox) && n in inbox && inbox[n] != []
    ensures n !in announced && startTime == Some(inbox[n][0])
    ensures InboxOk(leader, startTime, announced + {n}, inbox[n := inbox[n][1..]])
  {
  }

  lemma LeaderStartKeepsInv(cfg: Config, st: State, t: Timestamp)
    requires Inv(cfg, st) && Enabled(cfg, st, LeaderStart(t))
    ensures Inv(cfg, Do(cfg, st, LeaderStart(t)))
  {
    hide KeepsPromises, SignalsOk, LogOk, ClientOk, InboxOk, StreamTo, Signal;
    var n, st' := cfg.leader, Do(cfg, st, LeaderStart(t));
    LeaderInboxOk(cfg.leader, t, st.announced, st.inbox);
    SignalOk(n, st.servers[n], cfg.numClients[n], None, t);
    forall m | m in st.servers && m != n
      ensures SignalsOk(cfg.numClients[m], m in st'.announced, st'.startTime, st'.servers[m].replica.handed)
    {
      SignalsBeforeStart(cfg.numClients[m], None, t, st.servers[m].replica.handed);
    }
    ServerStepKeepsClients(cfg, st, st', n);
  }

  lemma FollowerStartKeepsInv(cfg: Config, st: State, n: NodeId)
    requires Inv(cfg, st) && Enabled(cfg, st, FollowerStart(n))
    ensures Inv(cfg, Do(cfg, st, FollowerStart(n)))
  {
    hide KeepsPromises, SignalsOk, LogOk, ClientOk, InboxOk, StreamTo, Signal;
    var t := st.inbox[n][0];
    FollowerInboxOk(cfg.leader, st.startTime, st.announced, st.inbox, n);
    SignalOk(n, st.servers[n], cfg.numClients[n], st.startTime, t);
    ServerStepKeepsClients(cfg, st, Do(cfg, st, FollowerStart(n)), n);
  }

  lemma DecideKeepsInv(cfg: Config, st: State, i: nat)
    requires Inv(cfg, st) && Enabled(cfg, st, Decide(i))
    ensures Inv(cfg, Do(cfg, st, Decide(i)))
  {
    hide KeepsPromises, SignalsOk, ClientOk, BenchOk, StreamTo;
    assert forall p :: 0 <= p < |st.order| ==> st.order[p] != i;
  }

  lemma FinishKeepsInv(cfg: Config, st: State, k: ClientKey)
    requires Inv(cfg, st) && Enabled(cfg, st, Finish(k))
    ensures Inv(cfg, Do(cfg, st, Finish(k)))
  {
    hide KeepsPromises, SignalsOk, LogOk, StreamTo, Replies, AppendedBy, HasReply;
  }

  lemma StepKeepsInv(cfg: Config, st: State, step: Step)
    requires Inv(cfg, st) && Enabled(cfg, st, step)
    ensures Inv(cfg, Do(cfg, st, step))
  {
    hide *;
    match step {
      case Send(_, _, _, _) => SendKeepsInv(cfg, st, step);
      case Ingest(k) => IngestKeepsInv(cfg, st, k);
      case Decide(i) => DecideKeepsInv(cfg, st, i);
      case Learn(n, upTo) => LearnKeepsInv(cfg, st, n, upTo);
      case ApplyDecided(n) => ApplyKeepsInv(cfg, st, n);
      case LeaderStart(t) => LeaderStartKeepsInv(cfg, st, t);
      case FollowerStart(n) => FollowerStartKeepsInv(cfg, st, n);
      case Deliver(k, now) => DeliverKeepsInv(cfg, st, k, now);
      case Finish(k) => FinishKeepsInv(cfg, st, k);
    }
  }
}
