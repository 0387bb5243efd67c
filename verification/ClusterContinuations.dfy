/** How any run of the cluster can go on: every request can still be answered. */
module ClusterContinuations {
  import opened KV
  import opened Replicas
  import opened Servers
  import opened Clients
  import opened Cluster
  import opened ClusterSafety
  import opened ClusterTheorems
  import opened ServerSteps

  /** Some steps lead from `from` to `st`. */
  ghost predicate On(cfg: Config, from: State, st: State) {
    Inv(cfg, st) && exists steps :: DoAll(cfg, from, steps) == Some(st)
  }

  lemma Stay(cfg: Config, st: State)
    requires Inv(cfg, st)
    ensures On(cfg, st, st)
  {
    hide Inv;
    assert DoAll(cfg, st, []) == Some(st);
  }

  lemma GoOn(cfg: Config, from: State, st: State, step: Step)
    requires On(cfg, from, st) && Enabled(cfg, st, step)
    ensures On(cfg, from, Do(cfg, st, step))
  {
    hide Inv, Enabled, Do;
    var steps :| DoAll(cfg, from, steps) == Some(st);
    DoOneMore(cfg, from, steps, step);
    StepKeepsInv(cfg, st, step);
    assert DoAll(cfg, from, steps + [step]) == Some(Do(cfg, st, step));
  }

  lemma OnFacts(cfg: Config, from: State, st: State, k: ClientKey)
    requires On(cfg, from, st) && k in st.clients
    ensures Shape(cfg, st) && Consistent(st, k)
  {
    hide LogOk, KeepsPromises, SignalsOk, InboxOk, ClientOk;
  }

  // ---------------------------------------------------------------- up to the answer

  /** The client's side of the link stays as it is while its server and the log move on. */
  predicate SameClient(st: State, st': State, k: ClientKey) {
    && k in st.clients && k in st'.clients && st'.clients[k] == st.clients[k].(ingested := st'.clients[k].ingested)
  }

  lemma {:induction false} TakesIn(cfg: Config, from: State, st: State, k: ClientKey, m: nat) returns (st': State)
    requires On(cfg, from, st) && k in st.clients && m < |st.clients[k].sent|
    ensures On(cfg, from, st') && SameClient(st, st', k) && m < st'.clients[k].ingested
    decreases |st.clients[k].sent| - st.clients[k].ingested
  {
    hide On, Consistent, StreamTo;
    OnFacts(cfg, from, st, k);
    IngestedIsBounded(st, k);
    st' := st;
    if st.clients[k].ingested <= m {
      GoOn(cfg, from, st, Ingest(k));
      st' := TakesIn(cfg, from, Do(cfg, st, Ingest(k)), k, m);
    }
  }

  lemma IngestedIsBounded(st: State, k: ClientKey)
    requires Consistent(st, k)
    ensures st.clients[k].ingested <= |st.clients[k].sent|
    ensures |AppendedBy(st.appended, k)| == st.clients[k].ingested
  {
  }

  /** The m-th message of a client among the proposals. */
  lemma {:induction false} ProposalOf(appended: seq<Command>, k: ClientKey, m: nat) returns (i: nat)
    requires m < |AppendedBy(appended, k)|
    ensures i < |appended| && IsBy(appended[i], k) && Rank(appended, i, k) == m
  {
    var n := |appended| - 1;
    if m < |AppendedBy(appended[..n], k)| {
      i := ProposalOf(appended[..n], k, m);
      assert appended[..n][..i] == appended[..i];
    } else {
      i := n;
    }
  }

  /** The message is decided, if it was not yet. */
  lemma GetsDecided(cfg: Config, from: State, st: State, k: ClientKey, m: nat) returns (st': State, p: nat)
    requires On(cfg, from, st) && k in st.clients && m < st.clients[k].ingested
    ensures On(cfg, from, st') && SameClient(st, st', k) && st'.clients[k] == st.clients[k]
    ensures IsRequest(st', p, k, m)
  {
    hide On, StreamTo, KeepsPromises, ClientOk, AppendedBy;
    OnFacts(cfg, from, st, k);
    IngestedIsBounded(st, k);
    var i := ProposalOf(st.appended, k, m);
    st' := st;
    if i in st.order {
      p :| 0 <= p < |st.order| && st.order[p] == i;
    } else {
      GoOn(cfg, from, st, Decide(i));
      st' := Do(cfg, st, Decide(i));
      p := |st.order|;
    }
  }

  /** The server learns the whole log and applies it. */
  lemma GetsApplied(cfg: Config, from: State, st: State, k: ClientKey) returns (st': State)
    requires On(cfg, from, st) && k in st.clients
    ensures On(cfg, from, st') && SameClient(st, st', k) && st'.clients[k] == st.clients[k] && k.server in st'.servers
    ensures st'.log == st.log && st'.order == st.order && st'.appended == st.appended
    ensures st'.servers[k.server].applied == |st.log| && st'.servers[k.server].decided == st.log
  {
    hide On, Consistent, StreamTo, ExecuteAll;
    OnFacts(cfg, from, st, k);
    KnowsNoMore(st, k);
    var n := k.server;
    GoOn(cfg, from, st, Learn(n, |st.log|));
    var mid := Do(cfg, st, Learn(n, |st.log|));
    GoOn(cfg, from, mid, ApplyDecided(n));
    st' := Do(cfg, mid, ApplyDecided(n));
    assert st.log[..|st.log|] == st.log;
  }

  lemma KnowsNoMore(st: State, k: ClientKey)
    requires Consistent(st, k)
    ensures |st.servers[k.server].decided| <= |st.log| && st.servers[k.server].applied <= |st.servers[k.server].decided|
  {
    hide LogOk, ClientOk, AnswersExactly;
  }

  // ---------------------------------------------------------------- the answer arrives

  predicate Listens(c: Session) {
    c.state.phase == Waiting || c.state.phase == Running
  }

  lemma {:induction false} GetsDelivered(cfg: Config, from: State, st: State, k: ClientKey) returns (st': State)
    requires On(cfg, from, st) && k in st.clients && Listens(st.clients[k]) && k.server in st.servers
    requires st.clients[k].received <= |Stream(st, k)|
    ensures On(cfg, from, st') && k in st'.clients && k.server in st'.servers
    ensures st'.servers == st.servers && st'.log == st.log && st'.order == st.order && st'.appended == st.appended
    ensures st'.clients[k].received == |Stream(st, k)| && Stream(st', k) == Stream(st, k)
    decreases |Stream(st, k)| - st.clients[k].received
  {
    hide On, Consistent, StreamTo, BenchOk;
    OnFacts(cfg, from, st, k);
    st' := st;
    if st.clients[k].received < |Stream(st, k)| {
      GoOn(cfg, from, st, Deliver(k, 0));
      var next := Do(cfg, st, Deliver(k, 0));
      StillListens(cfg, st, k);
      st' := GetsDelivered(cfg, from, next, k);
    }
  }

  /** A delivery does not stop a client that listens. */
  lemma StillListens(cfg: Config, st: State, k: ClientKey)
    requires Consistent(st, k) && Enabled(cfg, st, Deliver(k, 0)) && Listens(st.clients[k])
    ensures k in Do(cfg, st, Deliver(k, 0)).clients && Listens(Do(cfg, st, Deliver(k, 0)).clients[k])
  {
    hide Consistent, StreamTo, OnMessage, BenchOk;
    var c := st.clients[k];
    if c.bench {
      var m := Stream(st, k)[c.received];
      DeliverOk(st, k, 0);
      ListensOn(c.state, m, 0);
      NotPanicked(c.(received := c.received + 1, state := OnMessage(c.state, m, 0)), Stream(st, k));
    }
  }

  lemma ListensOn(s: ClientState, m: ServerMessage, now: Timestamp)
    requires s.phase == Waiting || s.phase == Running
    ensures OnMessage(s, m, now).phase in {Waiting, Running, Panicked}
  {
  }

  lemma NotPanicked(c: Session, stream: seq<ServerMessage>)
    requires c.received <= |stream| && BenchOk(c, stream)
    ensures c.state.phase != Panicked
  {
    hide Replies, HasReply;
  }

  /** Once everything decided is applied and everything handed over is received, every decided request is
      answered. */
  lemma AllIsAnswered(st: State, k: ClientKey, p: nat, m: nat) returns (r: nat)
    requires Consistent(st, k) && IsRequest(st, p, k, m) && p < st.servers[k.server].applied
    requires st.clients[k].received == |Stream(st, k)|
    ensures r < |Received(st, k)| && r < |AnsweredPositions(st, k)| && AnsweredPositions(st, k)[r] == p
  {
    hide StreamTo, Replies;
    var s := st.servers[k.server];
    PositionsAreRight(Applied(s), k.server, k.id);
    assert Applied(s)[p] == st.log[p];
    assert p in AnsweredPositions(st, k);
    r :| 0 <= r < |AnsweredPositions(st, k)| && AnsweredPositions(st, k)[r] == p;
    assert AnswersExactly(Replies(Stream(st, k)), Applied(s), k.server, k.id);
    assert Stream(st, k)[..|Stream(st, k)|] == Stream(st, k);
  }

  /** Every run can go on until a given message of a client that still listens is answered: its server takes it
      in, it is decided and applied, and the reply is delivered. */
  lemma EveryRequestCanBeAnswered(cfg: Config, run: seq<State>, steps: seq<Step>, k: ClientKey, m: nat)
    returns (run': seq<State>, steps': seq<Step>, r: nat)
    requires IsRun(cfg, run, steps) && |run| == |steps| + 1 && k in run[|steps|].clients
    requires m < |run[|steps|].clients[k].sent| && Listens(run[|steps|].clients[k])
    ensures IsRun(cfg, run', steps') && |run'| == |steps'| + 1 && run <= run' && steps <= steps'
    ensures var st := run'[|steps'|];
      && k in st.clients && k.server in st.servers && r < |Received(st, k)| && r < |AnsweredPositions(st, k)|
      && IsRequest(st, AnsweredPositions(st, k)[r], k, m)
      && Received(st, k)[r] == ReplyAt(st.log, AnsweredPositions(st, k)[r])
  {
    hide IsRun, On, Inv, Consistent, StreamTo, Received, Replies, Rank;
    var from := run[|steps|];
    RunInv(cfg, run, steps, |steps|);
    Stay(cfg, from);
    var st := TakesIn(cfg, from, from, k, m);
    var p: nat;
    st, p := GetsDecided(cfg, from, st, k, m);
    st := GetsApplied(cfg, from, st, k);
    OnFacts(cfg, from, st, k);
    StreamIsAhead(st, k);
    st := GetsDelivered(cfg, from, st, k);
    OnFacts(cfg, from, st, k);
    r := AllIsAnswered(st, k, p, m);
    ReceivedIsPrefix(st, k);
    ReplyHasRequest(st, k, r);
    var more := PathTo(cfg, from, st);
    run' := RunGoesOn(cfg, run, steps, more);
    steps' := steps + more;
    RunLengthIs(cfg, run', steps');
  }

  lemma RunLengthIs(cfg: Config, run: seq<State>, steps: seq<Step>)
    requires IsRun(cfg, run, steps)
    ensures |run| == |steps| + 1
  {
  }

  lemma StreamIsAhead(st: State, k: ClientKey)
    requires Consistent(st, k)
    ensures st.clients[k].received <= |Stream(st, k)|
  {
  }

  lemma PathTo(cfg: Config, from: State, st: State) returns (steps: seq<Step>)
    requires On(cfg, from, st)
    ensures DoAll(cfg, from, steps) == Some(st)
  {
    hide Inv, DoAll;
    steps :| DoAll(cfg, from, steps) == Some(st);
  }
}
