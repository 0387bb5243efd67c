/** What holds in every run of the cluster. */
module ClusterTheorems {
  import opened KV
  import opened Replicas
  import opened Servers
  import opened Clients
  import opened Cluster
  import opened ClusterSafety

  ghost predicate IsRun(cfg: Config, run: seq<State>, steps: seq<Step>) {
    && |run| == |steps| + 1
    && Init(cfg, run[0])
    && forall i :: 0 <= i < |steps| ==> Enabled(cfg, run[i], steps[i]) && run[i + 1] == Do(cfg, run[i], steps[i])
  }

  lemma {:induction false} RunInv(cfg: Config, run: seq<State>, steps: seq<Step>, i: nat)
    requires IsRun(cfg, run, steps) && i < |run|
    ensures Inv(cfg, run[i])
  {
    hide Inv, Init, Do, Enabled;
    if i == 0 {
      InitInv(cfg, run[0]);
    } else {
      RunInv(cfg, run, steps, i - 1);
      StepKeepsInv(cfg, run[i - 1], steps[i - 1]);
    }
  }

  // ---------------------------------------------------------------- what only grows

  /** Nothing that was appended, decided, sent, handed over or received is ever taken back. */
  ghost predicate Grows(st: State, st': State) {
    LogGrows(st, st') && SessionsGrow(st.clients, st'.clients) && ServersGrow(st.servers, st'.servers)
  }

  ghost predicate LogGrows(st: State, st': State) {
    st.appended <= st'.appended && st.order <= st'.order && st.log <= st'.log
  }

  ghost predicate SessionsGrow(cs: map<ClientKey, Session>, cs': map<ClientKey, Session>) {
    && cs'.Keys == cs.Keys
    && forall k :: k in cs ==>
         && cs'[k].bench == cs[k].bench && cs[k].sent <= cs'[k].sent
         && cs[k].ingested <= cs'[k].ingested && cs[k].received <= cs'[k].received
  }

  ghost predicate ServersGrow(ss: map<NodeId, Server>, ss': map<NodeId, Server>) {
    && ss'.Keys == ss.Keys
    && forall n :: n in ss ==>
         && ss[n].decided <= ss'[n].decided && ss[n].applied <= ss'[n].applied
         && ss[n].replica.handed <= ss'[n].replica.handed
  }

  lemma {:induction false} ExecuteHandsMore(me: NodeId, r: Replica, cmds: seq<Command>)
    ensures r.handed <= ExecuteAll(me, r, cmds).handed
  {
    if |cmds| > 0 {
      ExecuteHandsMore(me, r, cmds[..|cmds| - 1]);
    }
  }

  lemma CatchUpGrows(n: NodeId, s: Server)
    requires KeepsPromises(n, s)
    ensures s.applied <= CatchUp(n, s).applied && s.replica.handed <= CatchUp(n, s).replica.handed
  {
    if s.applied < |s.decided| {
      ExecuteHandsMore(n, s.replica, s.decided[s.applied..]);
    }
  }

  lemma StepGrowsLog(cfg: Config, st: State, step: Step)
    requires Enabled(cfg, st, step)
    ensures LogGrows(st, Do(cfg, st, step))
  {
    hide StreamTo, OnMessage, CatchUp, Signal;
  }

  lemma StepGrowsSessions(cfg: Config, st: State, step: Step)
    requires Enabled(cfg, st, step)
    ensures SessionsGrow(st.clients, Do(cfg, st, step).clients)
  {
    hide StreamTo, OnMessage, CatchUp, Signal;
  }

  lemma OneServerGrows(ss: map<NodeId, Server>, n: NodeId, s': Server)
    requires n in ss && ss[n].decided <= s'.decided && ss[n].applied <= s'.applied
    requires ss[n].replica.handed <= s'.replica.handed
    ensures ServersGrow(ss, ss[n := s'])
  {
  }

  lemma StepGrowsServers(cfg: Config, st: State, step: Step)
    requires Enabled(cfg, st, step)
    requires forall n :: n in st.servers ==> st.servers[n].decided <= st.log && KeepsPromises(n, st.servers[n])
    ensures ServersGrow(st.servers, Do(cfg, st, step).servers)
  {
    hide StreamTo, OnMessage, KeepsPromises, StartSignals, ServersGrow, ExecuteAll;
    match step {
      case ApplyDecided(n) =>
        CatchUpGrows(n, st.servers[n]);
        OneServerGrows(st.servers, n, CatchUp(n, st.servers[n]));
      case Learn(n, upTo) =>
        OneServerGrows(st.servers, n, st.servers[n].(decided := st.log[..upTo]));
      case LeaderStart(t) =>
        OneServerGrows(st.servers, cfg.leader, Signal(st.servers[cfg.leader], cfg.numClients[cfg.leader], t));
      case FollowerStart(n) =>
        OneServerGrows(st.servers, n, Signal(st.servers[n], cfg.numClients[n], st.inbox[n][0]));
      case _ =>
        SameServersGrow(st.servers);
    }
  }

  lemma SameServersGrow(ss: map<NodeId, Server>)
    ensures ServersGrow(ss, ss)
  {
  }

  lemma StepGrows(cfg: Config, st: State, step: Step)
    requires Inv(cfg, st) && Enabled(cfg, st, step)
    ensures Grows(st, Do(cfg, st, step))
  {
    hide Do, Enabled, LogGrows, SessionsGrow, ServersGrow, KeepsPromises, SignalsOk, InboxOk, ClientOk, LogOk;
    StepGrowsLog(cfg, st, step);
    StepGrowsSessions(cfg, st, step);
    StepGrowsServers(cfg, st, step);
  }

  lemma GrowsReflexive(a: State)
    ensures Grows(a, a)
  {
  }

  lemma GrowsTransitive(a: State, b: State, c: State)
    requires Grows(a, b) && Grows(b, c)
    ensures Grows(a, c)
  {
  }

  lemma {:induction false} RunGrows(cfg: Config, run: seq<State>, steps: seq<Step>, i: nat, j: nat)
    requires IsRun(cfg, run, steps) && i <= j < |run|
    ensures Grows(run[i], run[j])
    decreases j - i
  {
    hide Inv, Init, Do, Enabled, Grows;
    if i == j {
      GrowsReflexive(run[i]);
    } else {
      RunGrows(cfg, run, steps, i, j - 1);
      RunInv(cfg, run, steps, j - 1);
      StepGrows(cfg, run[j - 1], steps[j - 1]);
      GrowsTransitive(run[i], run[j - 1], run[j]);
    }
  }

  lemma RunConsistent(cfg: Config, run: seq<State>, steps: seq<Step>, i: nat, k: ClientKey)
    requires IsRun(cfg, run, steps) && i < |run| && k in run[i].clients
    ensures Consistent(run[i], k) && k.server in cfg.numClients
    ensures SignalsOk(cfg.numClients[k.server], k.server in run[i].announced, run[i].startTime,
                      run[i].servers[k.server].replica.handed)
  {
    hide IsRun, LogOk, KeepsPromises, SignalsOk, ClientOk, InboxOk;
    RunInv(cfg, run, steps, i);
  }

  lemma RunServer(cfg: Config, run: seq<State>, steps: seq<Step>, i: nat, n: NodeId)
    requires IsRun(cfg, run, steps) && i < |run| && n in run[i].servers
    ensures run[i].servers[n].decided <= run[i].log && KeepsPromises(n, run[i].servers[n])
    ensures n in cfg.numClients
    ensures SignalsOk(cfg.numClients[n], n in run[i].announced, run[i].startTime, run[i].servers[n].replica.handed)
  {
    hide IsRun, LogOk, KeepsPromises, SignalsOk, ClientOk, InboxOk;
    RunInv(cfg, run, steps, i);
  }

  // ---------------------------------------------------------------- replicas agree, replies are exactly once

  /** Every replica is the replay of the global log up to its own index, in every reachable state. */
  lemma ReplicasAgree(cfg: Config, run: seq<State>, steps: seq<Step>, i: nat, j: nat, n: NodeId)
    requires IsRun(cfg, run, steps) && i <= j < |run| && n in run[i].servers
    ensures var s := run[i].servers[n];
      s.applied <= |run[j].log| && s.replica.db == Replay(map[], KvCmds(run[j].log[..s.applied]))
  {
    hide IsRun, SessionsGrow, ServersGrow, AnswersExactly;
    RunServer(cfg, run, steps, i, n);
    RunGrows(cfg, run, steps, i, j);
    var s := run[i].servers[n];
    assert run[j].log[..s.applied] == Applied(s);
  }

  /** What server `n` ever handed to a client in reply: exactly the applied commands that `n` coordinates for
      that client, once each, in log order, with the sequential semantics' result. */
  lemma RepliesExactlyOnceInOrder(cfg: Config, run: seq<State>, steps: seq<Step>, i: nat, n: NodeId, c: ClientId)
    requires IsRun(cfg, run, steps) && i < |run| && n in run[i].servers
    ensures var log, s := run[i].log, run[i].servers[n];
      var replies, ps := Replies(StreamTo(s.replica.handed, c)), Positions(Applied(s), n, c);
      && s.applied <= |log| && |replies| == |ps|
      && (forall x, y :: 0 <= x < y < |ps| ==> ps[x] < ps[y])
      && (forall p :: p in ps <==> 0 <= p < s.applied && log[p].coordinatorId == n && log[p].clientId == c)
      && (forall r :: 0 <= r < |ps| ==> ps[r] < |log| && replies[r] == ReplyAt(log, ps[r]))
  {
    hide IsRun;
    RunServer(cfg, run, steps, i, n);
    var s := run[i].servers[n];
    assert AnswersExactly(Replies(StreamTo(s.replica.handed, c)), Applied(s), n, c);
    PositionsAreRight(Applied(s), n, c);
    RepliesOfPrefix(Applied(s), run[i].log, n, c);
  }

  lemma RepliesOfPrefix(done: seq<Command>, log: seq<Command>, n: NodeId, c: ClientId)
    requires done <= log
    ensures var ps := Positions(done, n, c);
      forall r :: 0 <= r < |ps| ==> ps[r] < |done| && ReplyAt(done, ps[r]) == ReplyAt(log, ps[r])
  {
    PositionsAreRight(done, n, c);
    var ps := Positions(done, n, c);
    forall r | 0 <= r < |ps|
      ensures ps[r] < |done| && ReplyAt(done, ps[r]) == ReplyAt(log, ps[r])
    {
      assert ps[r] in ps;
      assert done[..ps[r]] == log[..ps[r]];
    }
  }

  // ---------------------------------------------------------------- linearizability

  /** The replies client `k` has received so far. */
  function Received(st: State, k: ClientKey): seq<ServerMessage>
    requires k in st.clients && k.server in st.servers
  {
    var n := st.clients[k].received;
    Replies(if n <= |Stream(st, k)| then Stream(st, k)[..n] else Stream(st, k))
  }

  /** The log positions of the commands that client `k` has been answered, in order. */
  function AnsweredPositions(st: State, k: ClientKey): seq<nat>
    requires k.server in st.servers
  {
    Positions(Applied(st.servers[k.server]), k.server, k.id)
  }

  /** Log entry `q` is the m-th message of client `k`. */
  predicate IsRequest(st: State, q: nat, k: ClientKey, m: nat) {
    && q < |st.log| && q < |st.order| && st.order[q] < |st.appended|
    && IsBy(st.log[q], k) && Rank(st.appended, st.order[q], k) == m
  }

  lemma ReceivedIsPrefix(st: State, k: ClientKey)
    requires k in st.clients && k.server in st.servers
    ensures Received(st, k) <= Replies(Stream(st, k))
  {
    var stream, n := Stream(st, k), st.clients[k].received;
    if n <= |stream| {
      assert stream == stream[..n] + stream[n..];
      SplitConcat(stream[..n], stream[n..]);
    }
  }

  /** A reply handed over answers one request that its server took in, at one position of the log. */
  lemma ReplyHasRequest(st: State, k: ClientKey, r: nat)
    requires Consistent(st, k) && r < |Replies(Stream(st, k))|
    ensures r < |AnsweredPositions(st, k)|
    ensures var p := AnsweredPositions(st, k)[r];
      && p < |st.log| && Replies(Stream(st, k))[r] == ReplyAt(st.log, p)
      && p < |st.order| && st.order[p] < |st.appended|
      && var m := Rank(st.appended, st.order[p], k);
         && IsRequest(st, p, k, m) && m < st.clients[k].ingested <= |st.clients[k].sent|
         && st.log[p] == ToCommand(k, st.clients[k].sent[m])
  {
    var s := st.servers[k.server];
    ReplyIdsAreRequests(st, k, r);
    RepliesOfPrefix(Applied(s), st.log, k.server, k.id);
    assert AnswersExactly(Replies(Stream(st, k)), Applied(s), k.server, k.id);
  }

  /** What a log entry is, and what its reply is, never changes as the system grows. */
  lemma EntriesStay(st: State, st': State, p: nat, k: ClientKey, m: nat)
    requires Grows(st, st') && LogOk(st.appended, st.order, st.log) && p < |st.log|
    ensures p < |st'.log| && ReplyAt(st'.log, p) == ReplyAt(st.log, p)
    ensures IsRequest(st', p, k, m) <==> IsRequest(st, p, k, m)
  {
    assert st'.log[..p] == st.log[..p];
    assert st'.appended[..st.order[p]] == st.appended[..st.order[p]];
  }

  /** A request already decided is one its server has already taken in. */
  lemma DecidedWasIngested(st: State, q: nat, k: ClientKey, m: nat)
    requires Consistent(st, k) && IsRequest(st, q, k, m)
    ensures m < st.clients[k].ingested
  {
    RankIsPlace(st.appended, st.order[q], k);
  }

  /** `reply` is the sequential result of the request of client `a` at position `p` of the log, which precedes any
      position at which the m-th message of client `b` is decided. */
  ghost predicate PrecedesInLog(st: State, a: ClientKey, p: nat, reply: ServerMessage, b: ClientKey, m: nat) {
    && p < |st.log| && reply == ReplyAt(st.log, p)
    && (exists x: nat :: IsRequest(st, p, a, x) && IsMessage(st, p, a, x))
    && (forall q: nat :: IsRequest(st, q, b, m) ==> p < q)
  }

  predicate IsMessage(st: State, p: nat, k: ClientKey, x: nat) {
    k in st.clients && x < |st.clients[k].sent| && p < |st.log| && st.log[p] == ToCommand(k, st.clients[k].sent[x])
  }

  /** Between two states: a reply handed over in the first, and a message not taken in yet. */
  lemma LinearizableStates(st: State, st': State, a: ClientKey, r: nat, b: ClientKey, m: nat)
    requires Consistent(st, a) && Consistent(st, b) && Grows(st, st')
    requires r < |Replies(Stream(st, a))| && m >= st.clients[b].ingested
    ensures r < |AnsweredPositions(st, a)|
    ensures PrecedesInLog(st', a, AnsweredPositions(st, a)[r], Replies(Stream(st, a))[r], b, m)
  {
    hide LogOk, KeepsPromises, ClientOk, ReplyAt, Replies, StreamTo;
    ReplyHasRequest(st, a, r);
    var p := AnsweredPositions(st, a)[r];
    var x := Rank(st.appended, st.order[p], a);
    EntriesStay(st, st', p, a, x);
    assert IsMessage(st', p, a, x);
    forall q: nat | IsRequest(st', q, b, m)
      ensures p < q
    {
      if q < |st.log| {
        EntriesStay(st, st', q, b, m);
        DecidedWasIngested(st, q, b, m);
      }
    }
  }

  /** Linearizability, with the decided log as the sequential order. If the r-th reply to client `a` has been
      handed over in state `i`, and the m-th message of client `b` is appended only later, then in every later
      state `j`: the reply is the sequential result at the log position of one of a's requests, and that position
      precedes any at which b's message is decided. */
  lemma Linearizable(cfg: Config, run: seq<State>, steps: seq<Step>, i: nat, j: nat,
                     a: ClientKey, r: nat, b: ClientKey, m: nat)
    requires IsRun(cfg, run, steps) && i <= j < |run|
    requires a in run[i].clients && a.server in run[i].servers && r < |Replies(Stream(run[i], a))|
    requires b in run[i].clients && m >= run[i].clients[b].ingested
    ensures r < |AnsweredPositions(run[i], a)|
    ensures PrecedesInLog(run[j], a, AnsweredPositions(run[i], a)[r], Replies(Stream(run[i], a))[r], b, m)
  {
    hide IsRun, Grows, Consistent, Replies, StreamTo, PrecedesInLog;
    RunConsistent(cfg, run, steps, i, a);
    RunConsistent(cfg, run, steps, i, b);
    RunGrows(cfg, run, steps, i, j);
    LinearizableStates(run[i], run[j], a, r, b, m);
  }

  /** The same as the clients see it: `a` has received its r-th reply before `b` sends its m-th message. */
  lemma ClientsSeeOrder(cfg: Config, run: seq<State>, steps: seq<Step>, i: nat, j: nat,
                        a: ClientKey, r: nat, b: ClientKey, m: nat)
    requires IsRun(cfg, run, steps) && i <= j < |run|
    requires a in run[i].clients && a.server in run[i].servers && r < |Received(run[i], a)|
    requires b in run[i].clients && m >= |run[i].clients[b].sent|
    ensures r < |AnsweredPositions(run[i], a)|
    ensures PrecedesInLog(run[j], a, AnsweredPositions(run[i], a)[r], Received(run[i], a)[r], b, m)
  {
    hide IsRun, LogOk, KeepsPromises, Replies, StreamTo, PrecedesInLog;
    RunConsistent(cfg, run, steps, i, b);
    ReceivedIsPrefix(run[i], a);
    Linearizable(cfg, run, steps, i, j, a, r, b, m);
  }

  // ---------------------------------------------------------------- the start barrier

  /** No client of any server, benchmark client or not, is ever handed two start signals; those outside a
      server's configured ids are handed none. */
  lemma AtMostOneSignal(cfg: Config, run: seq<State>, steps: seq<Step>, i: nat, n: NodeId, c: ClientId)
    requires IsRun(cfg, run, steps) && i < |run| && n in run[i].servers
    ensures n in cfg.numClients
    ensures var signals := Signals(StreamTo(run[i].servers[n].replica.handed, c));
      |signals| <= (if 1 <= c <= cfg.numClients[n] then 1 else 0)
  {
    hide IsRun, KeepsPromises;
    RunServer(cfg, run, steps, i, n);
  }

  /** A benchmark client's first message is a start signal, so waiting for it never panics; it gets no second
      one, and one whose id its server is not configured for is handed nothing at all. */
  lemma StartBarrier(cfg: Config, run: seq<State>, steps: seq<Step>, i: nat, k: ClientKey)
    requires IsRun(cfg, run, steps) && i < |run| && k in run[i].clients && run[i].clients[k].bench
    ensures k.server in run[i].servers && k.server in cfg.numClients
    ensures var c, stream := run[i].clients[k], Stream(run[i], k);
      && c.state.phase != Panicked
      && (c.received > 0 ==> stream != [] && stream[0].StartSignal?)
      && (c.received == 0 ==> c.sent == [])
      && |Signals(stream)| <= 1
      && (!(1 <= k.id <= cfg.numClients[k.server]) ==> c.state.phase == Waiting && stream == [])
  {
    hide IsRun;
    var st := run[i];
    RunConsistent(cfg, run, steps, i, k);
    var stream := Stream(st, k);
    if !(1 <= k.id <= cfg.numClients[k.server]) {
      NoSignalNoStream(st, k);
    }
  }

  lemma NoSignalNoStream(st: State, k: ClientKey)
    requires Consistent(st, k) && st.clients[k].bench && Signals(Stream(st, k)) == []
    ensures Stream(st, k) == []
  {
    var stream := Stream(st, k);
    RepliesAreReplies(stream);
    if st.clients[k].received > 0 {
      SignalsAreSignals(stream, 0);
    } else {
      FirstDeliveryIsStart(st, k);
    }
  }

  lemma {:induction false} SignalsAreSignals(stream: seq<ServerMessage>, i: nat)
    requires i < |stream|
    ensures stream[i].StartSignal? ==> stream[i] in Signals(stream)
  {
    if i < |stream| - 1 {
      SignalsAreSignals(stream[..|stream| - 1], i);
    }
  }

  /** Every start signal handed to any client of any server carries the one start time the leader chose. */
  lemma OneStartTime(cfg: Config, run: seq<State>, steps: seq<Step>, i: nat, n: NodeId, c: ClientId, x: nat)
    requires IsRun(cfg, run, steps) && i < |run| && n in run[i].servers
    requires x < |StreamTo(run[i].servers[n].replica.handed, c)|
    requires StreamTo(run[i].servers[n].replica.handed, c)[x].StartSignal?
    ensures run[i].startTime == Some(StreamTo(run[i].servers[n].replica.handed, c)[x].time)
  {
    hide IsRun, KeepsPromises;
    RunServer(cfg, run, steps, i, n);
    SignalsAreSignals(StreamTo(run[i].servers[n].replica.handed, c), x);
  }

  // ---------------------------------------------------------------- client bookkeeping

  function Answered(d: Data): set<nat> {
    set m | 0 <= m < |d.requests| && d.requests[m].responseTime.Some?
  }

  /** The next reply a running client can receive indexes a recorded, still unanswered request. */
  lemma NextReplyIsInRange(cfg: Config, run: seq<State>, steps: seq<Step>, i: nat, k: ClientKey)
    requires IsRun(cfg, run, steps) && i < |run| && k in run[i].clients && run[i].clients[k].bench
    ensures k.server in run[i].servers
    ensures var c, stream := run[i].clients[k], Stream(run[i], k);
      c.received < |stream| && !stream[c.received].StartSignal? ==>
        stream[c.received].id < |c.state.data.requests| && stream[c.received].id !in Answered(c.state.data)
  {
    hide IsRun, LogOk, KeepsPromises, SignalsOk, Replies, StreamTo, AppendedBy;
    RunConsistent(cfg, run, steps, i, k);
    var st := run[i];
    if st.clients[k].received < |Stream(st, k)| && !Stream(st, k)[st.clients[k].received].StartSignal? {
      NextReplyIsFresh(st, k);
    }
  }

  function Ids(replies: seq<ServerMessage>): set<nat> {
    set m | m in replies && !m.StartSignal? :: m.id
  }

  lemma {:induction false} DistinctIdsCount(replies: seq<ServerMessage>)
    requires forall m :: m in replies ==> !m.StartSignal?
    requires forall q, r :: 0 <= q < r < |replies| ==> replies[q].id != replies[r].id
    ensures |Ids(replies)| == |replies|
  {
    if |replies| > 0 {
      var n := |replies| - 1;
      var init, last := replies[..n], replies[n];
      DistinctIdsCount(init);
      assert replies == init + [last];
      assert Ids(replies) == Ids(init) + {last.id};
      forall m | m in init
        ensures m in replies && m.id != last.id
      {
        var q :| 0 <= q < n && init[q] == m;
        assert replies[q] == m;
      }
    }
  }

  /** The response count is the number of answered requests, and never exceeds the number of requests sent. */
  lemma ResponseCountIsRight(cfg: Config, run: seq<State>, steps: seq<Step>, i: nat, k: ClientKey)
    requires IsRun(cfg, run, steps) && i < |run| && k in run[i].clients && run[i].clients[k].bench
    ensures var c := run[i].clients[k];
      c.state.data.responseCount == |Answered(c.state.data)| <= |c.state.data.requests| == |c.sent|
  {
    hide IsRun, LogOk, KeepsPromises, SignalsOk;
    RunConsistent(cfg, run, steps, i, k);
    var d := run[i].clients[k].state.data;
    ReceivedIdsAreAnswered(run[i], k);
    BoundedCount(Answered(d), |d.requests|);
  }

  lemma ReceivedIdsAreAnswered(st: State, k: ClientKey)
    requires Consistent(st, k) && st.clients[k].bench
    ensures Ids(Received(st, k)) == Answered(st.clients[k].state.data)
    ensures |Answered(st.clients[k].state.data)| == |Received(st, k)|
  {
    var c, got := st.clients[k], Received(st, k);
    ReceivedIsPrefix(st, k);
    BenchReplyIds(st, k);
    forall m | m in got
      ensures !m.StartSignal? && m.id < |c.sent|
    {
      assert m in Replies(Stream(st, k));
    }
    forall q, r | 0 <= q < r < |got|
      ensures got[q].id != got[r].id
    {
      ReplyIdsDiffer(st, k, q, r);
    }
    DistinctIdsCount(got);
  }

  lemma {:induction false} BoundedCount(s: set<nat>, n: nat)
    requires forall x :: x in s ==> x < n
    ensures |s| <= n
  {
    if n == 0 {
      assert s == {};
    } else {
      BoundedCount(s - {n - 1}, n - 1);
      if n - 1 in s {
        assert s == (s - {n - 1}) + {n - 1};
      } else {
        assert s == s - {n - 1};
      }
    }
  }

  // ---------------------------------------------------------------- what a benchmark client measures

  /** Step `j` of the run is the sending of request `m` of client `k`, as recorded in `r`. */
  predicate SentAs(run: seq<State>, steps: seq<Step>, j: nat, k: ClientKey, m: nat, r: RequestData) {
    && j < |steps| && j < |run| && k in run[j].clients && |run[j].clients[k].state.data.requests| == m
    && steps[j] == Send(k, RequestNo(m, r.write), r.write, r.requestTime)
  }

  /** Step `j` is the delivery of the reply to request `m` of client `k`, at time `t`. */
  predicate AnsweredAt(run: seq<State>, steps: seq<Step>, j: nat, k: ClientKey, m: nat, t: Timestamp) {
    && j < |steps| && j < |run| && k in run[j].clients && k.server in run[j].servers
    && steps[j] == Deliver(k, t) && run[j].clients[k].received < |Stream(run[j], k)|
    && var reply := Stream(run[j], k)[run[j].clients[k].received];
       !reply.StartSignal? && reply.id == m
  }

  /** What one step does to the records of a benchmark client. */
  lemma StepRecords(cfg: Config, st: State, step: Step, k: ClientKey)
    requires Enabled(cfg, st, step) && k in st.clients && st.clients[k].bench
    ensures k in Do(cfg, st, step).clients && Do(cfg, st, step).clients[k].bench
    ensures var before, after := st.clients[k].state.data.requests, Do(cfg, st, step).clients[k].state.data.requests;
      || after == before
      || (step.Send? && step.k == k && step.msg == RequestNo(|before|, step.isWrite)
          && after == before + [RequestData(step.now, step.isWrite, None)])
      || (step.Deliver? && step.k == k
          && var reply := Stream(st, k)[st.clients[k].received];
             !reply.StartSignal? && Answers(before, after, reply.id, step.now))
  {
    hide StreamTo, CatchUp, Signal, RequestNo;
  }

  /** Each recorded request was sent at the time and as the kind recorded, under its own number as key. */
  lemma {:induction false} RequestsAreRecorded(cfg: Config, run: seq<State>, steps: seq<Step>, i: nat, k: ClientKey,
                                               m: nat)
    returns (j: nat)
    requires IsRun(cfg, run, steps) && i < |run| && k in run[i].clients && run[i].clients[k].bench
    requires m < |run[i].clients[k].state.data.requests|
    ensures j < i && SentAs(run, steps, j, k, m, run[i].clients[k].state.data.requests[m])
  {
    hide Init, Do, Enabled, SentAs, RequestNo, Stream;
    RunKeepsClients(cfg, run, steps, i, k);
    var step := steps[i - 1];
    StepRecords(cfg, run[i - 1], step, k);
    var before := run[i - 1].clients[k].state.data.requests;
    if m < |before| {
      j := RequestsAreRecorded(cfg, run, steps, i - 1, k, m);
      SameRecord(run, steps, j, k, m, before[m], run[i].clients[k].state.data.requests[m]);
    } else {
      j := i - 1;
      JustSent(run, steps, j, k, m, run[i].clients[k].state.data.requests[m]);
    }
  }

  lemma SameRecord(run: seq<State>, steps: seq<Step>, j: nat, k: ClientKey, m: nat, r: RequestData, r': RequestData)
    requires SentAs(run, steps, j, k, m, r) && r'.requestTime == r.requestTime && r'.write == r.write
    ensures SentAs(run, steps, j, k, m, r')
  {
  }

  lemma JustSent(run: seq<State>, steps: seq<Step>, j: nat, k: ClientKey, m: nat, r: RequestData)
    requires j < |steps| && j < |run| && k in run[j].clients && |run[j].clients[k].state.data.requests| == m
    requires steps[j] == Send(k, RequestNo(m, r.write), r.write, r.requestTime)
    ensures SentAs(run, steps, j, k, m, r)
  {
  }

  /** Clients are there from the start, and stay what they are. */
  lemma RunKeepsClients(cfg: Config, run: seq<State>, steps: seq<Step>, i: nat, k: ClientKey)
    requires IsRun(cfg, run, steps) && i < |run| && k in run[i].clients
    ensures i == 0 ==> run[i].clients[k].state.data.requests == []
    ensures i > 0 ==> k in run[i - 1].clients && run[i - 1].clients[k].bench == run[i].clients[k].bench
  {
    hide Do, Enabled;
    if i > 0 {
      StepGrowsSessions(cfg, run[i - 1], steps[i - 1]);
    }
  }

  /** The response time of an answered request is the time at which the reply with its number was delivered. */
  lemma {:induction false} ResponseTimeIsRight(cfg: Config, run: seq<State>, steps: seq<Step>, i: nat, k: ClientKey,
                                               m: nat)
    returns (j: nat)
    requires IsRun(cfg, run, steps) && i < |run| && k in run[i].clients && run[i].clients[k].bench
    requires m < |run[i].clients[k].state.data.requests|
    requires run[i].clients[k].state.data.requests[m].responseTime.Some?
    ensures j < i
    ensures AnsweredAt(run, steps, j, k, m, run[i].clients[k].state.data.requests[m].responseTime.value)
  {
    hide Init, Do, AnsweredAt, RequestNo;
    RunKeepsClients(cfg, run, steps, i, k);
    var step := steps[i - 1];
    StepRecords(cfg, run[i - 1], step, k);
    var before, after := run[i - 1].clients[k].state.data.requests, run[i].clients[k].state.data.requests;
    if m < |before| && after[m] == before[m] {
      j := ResponseTimeIsRight(cfg, run, steps, i - 1, k, m);
    } else {
      j := i - 1;
      JustAnswered(cfg, run, steps, j, k, m, after[m].responseTime.value);
    }
  }

  lemma JustAnswered(cfg: Config, run: seq<State>, steps: seq<Step>, j: nat, k: ClientKey, m: nat, t: Timestamp)
    requires j < |steps| && j < |run| && steps[j] == Deliver(k, t) && Enabled(cfg, run[j], steps[j])
    requires var reply := Stream(run[j], k)[run[j].clients[k].received]; !reply.StartSignal? && reply.id == m
    ensures AnsweredAt(run, steps, j, k, m, t)
  {
  }

  lemma FinishedStays(cfg: Config, st: State, step: Step, k: ClientKey)
    requires Enabled(cfg, st, step) && k in st.clients && st.clients[k].bench && st.clients[k].state.phase == Finished
    ensures k in Do(cfg, st, step).clients
    ensures Do(cfg, st, step).clients[k].bench && Do(cfg, st, step).clients[k].state == st.clients[k].state
    ensures Do(cfg, st, step).clients[k].sent == st.clients[k].sent
  {
    hide StreamTo, CatchUp, Signal, RequestNo;
  }

  /** A benchmark client that finishes is finished for good: it sends and records nothing any more. */
  lemma {:induction false} FinishedForGood(cfg: Config, run: seq<State>, steps: seq<Step>, i: nat, j: nat, k: ClientKey)
    requires IsRun(cfg, run, steps) && i < j < |run| && steps[i] == Finish(k)
    requires k in run[i].clients && run[i].clients[k].bench
    ensures k in run[j].clients && run[j].clients[k].bench && run[j].clients[k].state.phase == Finished
    ensures run[j].clients[k].state.data == run[i].clients[k].state.data
    ensures run[j].clients[k].sent == run[i].clients[k].sent
    decreases j
  {
    hide Init;
    if j > i + 1 {
      hide Do, Enabled;
      FinishedForGood(cfg, run, steps, i, j - 1, k);
      FinishedStays(cfg, run[j - 1], steps[j - 1], k);
    } else {
      assert Enabled(cfg, run[i], steps[i]) && run[i + 1] == Do(cfg, run[i], steps[i]);
    }
  }
}
