/** The gateway and the cluster together: what an HTTP caller is told. */
module EndToEnd {
  import opened KV
  import opened Replicas
  import opened Servers
  import C = Cluster
  import CS = ClusterSafety
  import CT = ClusterTheorems
  import G = Gateway
  import GS = GatewaySafety
  import GO = GatewayOutcomes
  import J = Joint

  /** The body of an HTTP answer: ok, with a value field for some answers, or an error status. */
  datatype Http = Ok(cmdId: CommandId, value: Option<Option<string>>) | Error(status: nat)

  function CommandIdFromResponse(m: ServerMessage): Http {
    match m
    case Write(id) => Ok(id, None)
    case Read(id, _) => Ok(id, None)
    case StartSignal(_) => Error(500)
  }

  /** The put, delete and get handlers, after `submit_command` returned. */
  function Respond(cmd: KVCommand, outcome: G.Outcome): Http {
    match outcome
    case Failure(SenderUnavailable) => Error(503)
    case Failure(ChannelClosed) => Error(500)
    case Failure(Timeout) => Error(504)
    case Success(m) =>
      match cmd
      case Get(_) =>
        (match m
         case Read(id, value) => Ok(id, Some(value))
         case Write(id) => Ok(id, None)
         case StartSignal(_) => Error(500))
      case _ => CommandIdFromResponse(m)
  }

  /** The answer the sequential semantics calls for when `cmd` runs on `db`. */
  function Expected(db: Store, id: CommandId, cmd: KVCommand): Http {
    match cmd
    case Get(key) => Ok(id, Some(Lookup(db, key)))
    case _ => Ok(id, None)
  }

  predicate Succeeded(g: G.State, h: G.HandlerId) {
    h in g.handlers && g.handlers[h].pc.Done? && g.handlers[h].pc.outcome.Success?
  }

  /** The caller of handler `h` has been answered `http`. */
  predicate Told(g: G.State, h: G.HandlerId, http: Http) {
    h in g.handlers && g.handlers[h].pc.Done? && Respond(g.handlers[h].cmd, g.handlers[h].pc.outcome) == http
  }

  /** The log holds the handler's command at `p`; its outcome is the reply that running it there gives, a read for
      a GET and a write for a PUT or DELETE; and its caller is told what the command returns there. */
  predicate AnsweredFrom(log: seq<Command>, p: nat, k: C.ClientKey, x: G.Handler) {
    && p < |log| && log[p] == Command(k.id, k.server, x.id, x.cmd)
    && x.pc == G.Done(G.Success(ReplyAt(log, p)))
    && (x.pc.outcome.msg.Read? <==> x.cmd.Get?) && (x.pc.outcome.msg.Write? <==> !x.cmd.Get?)
    && Respond(x.cmd, x.pc.outcome) == Expected(Replay(map[], KvCmds(log[..p])), x.id, x.cmd)
  }

  lemma MemberIndex<T>(s: seq<T>, x: T) returns (i: nat)
    requires x in s
    ensures i < |s| && s[i] == x
  {
    i :| 0 <= i < |s| && s[i] == x;
  }

  // ---------------------------------------------------------------- in one state

  /** A successful outcome is one of the replies the client received, to this handler's own request. */
  lemma SuccessIsReply(st: C.State, k: C.ClientKey, g: G.State, h: G.HandlerId) returns (r: nat, m: nat)
    requires CS.Consistent(st, k) && G.Inv(g) && J.Linked(st, k, g) && Succeeded(g, h)
    ensures r < |CT.Received(st, k)| && r < |Replies(C.Stream(st, k))| && r < |CT.AnsweredPositions(st, k)|
    ensures var p, x := CT.AnsweredPositions(st, k)[r], g.handlers[h];
      && x.pc.outcome.msg == CT.Received(st, k)[r]
      && CT.IsRequest(st, p, k, m) && AnsweredFrom(st.log, p, k, x)
      && m < |g.toServer| && g.toServer[m].id == x.id
  {
    var x := g.handlers[h];
    var msg := x.pc.outcome.msg;
    r := ReplyIndex(st, k, g, h);
    CT.ReplyHasRequest(st, k, r);
    var p := CT.AnsweredPositions(st, k)[r];
    m := CS.Rank(st.appended, st.order[p], k);
    OwnRequest(g, h, m);
  }

  lemma ReplyIndex(st: C.State, k: C.ClientKey, g: G.State, h: G.HandlerId) returns (r: nat)
    requires G.Inv(g) && J.Linked(st, k, g) && Succeeded(g, h)
    ensures r < |CT.Received(st, k)| && r < |Replies(C.Stream(st, k))|
    ensures var x := g.handlers[h];
      var m := x.pc.outcome.msg;
      m == CT.Received(st, k)[r] == Replies(C.Stream(st, k))[r] && !m.StartSignal? && m.id == x.id && G.HasId(x)
  {
    hide StreamTo, Replies;
    var x := g.handlers[h];
    assert G.OutcomeOk(g, h);
    G.FirstReplyIsReply(g.fromServer, x.since, x.id);
    CS.RepliesAreReplies(C.Stream(st, k)[..st.clients[k].received]);
    r := MemberIndex(CT.Received(st, k), x.pc.outcome.msg);
    CT.ReceivedIsPrefix(st, k);
  }

  /** The request sent under a handler's id is that handler's. */
  lemma OwnRequest(g: G.State, h: G.HandlerId, m: nat)
    requires G.Inv(g) && h in g.handlers && G.HasId(g.handlers[h])
    requires m < |g.toServer| && g.toServer[m].id == g.handlers[h].id
    ensures g.toServer[m] == Append(g.handlers[h].id, g.handlers[h].cmd)
  {
    hide G.PendingOk, G.ReaderOk, G.ChannelOk, G.OutcomeOk;
    assert G.HasSender(g.handlers, g.toServer[m]);
    var o :| G.SentBy(g.handlers, g.toServer[m], o);
    assert o == h;
  }

  /** A request of a handler that has not entered yet is none of the requests sent so far. */
  lemma NotSentBeforeEntering(g: G.State, g': G.State, h: G.HandlerId, m: nat)
    requires G.Inv(g) && G.Inv(g') && GS.Grows(g, g')
    requires h !in g.handlers && h in g'.handlers && G.HasId(g'.handlers[h])
    requires m < |g'.toServer| && g'.toServer[m].id == g'.handlers[h].id
    ensures m >= |g.toServer|
  {
    hide G.PendingOk, G.ReaderOk, G.ChannelOk, G.OutcomeOk;
    forall n: nat | n < |g.toServer|
      ensures g'.toServer[n].id != g'.handlers[h].id
    {
      assert G.HasSender(g.handlers, g.toServer[n]);
      var o :| G.SentBy(g.handlers, g.toServer[n], o);
      assert g'.handlers[o].id == g.handlers[o].id && o != h;
    }
  }

  /** Each log entry of a gateway is one of the requests it sent. */
  lemma EntryWasSent(st: C.State, k: C.ClientKey, g: G.State, p: nat) returns (m: nat)
    requires CS.Consistent(st, k) && J.Linked(st, k, g) && p < |st.log| && C.IsBy(st.log[p], k)
    ensures p < |st.order| && st.order[p] < |st.appended| && m == CS.Rank(st.appended, st.order[p], k)
    ensures m < |g.toServer| && st.log[p] == C.ToCommand(k, g.toServer[m])
  {
    hide StreamTo, C.ClientOk;
    m := CS.Rank(st.appended, st.order[p], k);
    CS.RankIsPlace(st.appended, st.order[p], k);
    WhatWasAppended(st, k);
  }

  lemma WhatWasAppended(st: C.State, k: C.ClientKey)
    requires CS.Consistent(st, k)
    ensures st.clients[k].ingested <= |st.clients[k].sent|
    ensures C.AppendedBy(st.appended, k) == st.clients[k].sent[..st.clients[k].ingested]
  {
  }

  /** No two log entries of a gateway have the same id. */
  lemma EntriesDiffer(st: C.State, k: C.ClientKey, g: G.State, p: nat, q: nat)
    requires CS.Consistent(st, k) && J.Linked(st, k, g) && G.SentOk(g.handlers, g.toServer)
    requires p < q < |st.log| && C.IsBy(st.log[p], k) && C.IsBy(st.log[q], k)
    ensures st.log[p].id != st.log[q].id
  {
    hide StreamTo, C.ClientOk, KeepsPromises, G.HasSender;
    var m := EntryWasSent(st, k, g, p);
    var n := EntryWasSent(st, k, g, q);
    CS.RankIsPlace(st.appended, st.order[p], k);
    CS.RankIsPlace(st.appended, st.order[q], k);
    assert st.order[p] != st.order[q];
  }

  // ---------------------------------------------------------------- in every run

  lemma RunState(cfg: C.Config, run: seq<J.State>, steps: seq<J.Step>, i: nat, k: C.ClientKey)
    requires J.IsRun(cfg, run, steps) && i < |run| && k in run[i].gateways
    ensures CS.Consistent(run[i].cluster, k) && G.Inv(run[i].gateways[k])
    ensures J.Linked(run[i].cluster, k, run[i].gateways[k]) && k.server in run[i].cluster.servers
  {
    hide J.IsRun, C.LogOk, KeepsPromises, C.SignalsOk, C.ClientOk, C.InboxOk, G.Inv;
    J.RunInv(cfg, run, steps, i);
  }

  /** Every successful HTTP answer is the sequential result of the caller's own command at its position in the
      log: a GET is always answered with a value field, a PUT or DELETE never is. */
  lemma SuccessIsSequential(cfg: C.Config, run: seq<J.State>, steps: seq<J.Step>, i: nat, k: C.ClientKey,
                            h: G.HandlerId)
    requires J.IsRun(cfg, run, steps) && i < |run| && k in run[i].gateways && Succeeded(run[i].gateways[k], h)
    ensures exists p: nat :: AnsweredFrom(run[i].cluster.log, p, k, run[i].gateways[k].handlers[h])
  {
    hide J.IsRun, G.Inv, CS.Consistent, J.Linked;
    RunState(cfg, run, steps, i, k);
    var r, m := SuccessIsReply(run[i].cluster, k, run[i].gateways[k], h);
  }

  /** Linearizability of the HTTP interface, across any two gateways or within one. If handler `hA` succeeded
      before handler `hB` entered, then wherever hB's command is in the log later, whatever its caller is told or
      whether it is told anything yet, hA's command precedes it, at the position whose sequential result hA's
      caller got. */
  lemma HttpLinearizable(cfg: C.Config, run: seq<J.State>, steps: seq<J.Step>, i: nat, j: nat,
                         kA: C.ClientKey, hA: G.HandlerId, kB: C.ClientKey, hB: G.HandlerId, q: nat)
    requires J.IsRun(cfg, run, steps) && i <= j < |run|
    requires kA in run[i].gateways && Succeeded(run[i].gateways[kA], hA)
    requires kB in run[i].gateways && hB !in run[i].gateways[kB].handlers
    requires kB in run[j].gateways && IsRequestOf(run[j].cluster.log, q, kB, run[j].gateways[kB], hB)
    ensures exists p: nat :: p < q && AnsweredFrom(run[j].cluster.log, p, kA, run[i].gateways[kA].handlers[hA])
  {
    hide J.IsRun, G.Inv, CS.Consistent, J.Linked, CT.Grows, GS.Grows, AnsweredFrom;
    RunState(cfg, run, steps, i, kA);
    J.RunGrows(cfg, run, steps, i, j);
    NewRequestsComeLater(cfg, run, steps, i, j, kB, hB, q);
    var st, st' := run[i].cluster, run[j].cluster;
    var r, m := SuccessIsReply(st, kA, run[i].gateways[kA], hA);
    var p := CT.AnsweredPositions(st, kA)[r];
    StillAnsweredFrom(st, st', p, kA, run[i].gateways[kA].handlers[hA]);
    AnsweredIsInLog(st.log, p, kA, run[i].gateways[kA].handlers[hA]);
  }

  /** Log entry `q` is the command of handler `h` of gateway `k`. */
  predicate IsRequestOf(log: seq<Command>, q: nat, k: C.ClientKey, g: G.State, h: G.HandlerId) {
    && h in g.handlers && G.HasId(g.handlers[h])
    && q < |log| && C.IsBy(log[q], k) && log[q].id == g.handlers[h].id
  }

  lemma AnsweredIsInLog(log: seq<Command>, p: nat, k: C.ClientKey, x: G.Handler)
    requires AnsweredFrom(log, p, k, x)
    ensures p < |log|
  {
  }

  /** The command of a handler that has not entered yet goes behind all that is in the log now. */
  lemma NewRequestsComeLater(cfg: C.Config, run: seq<J.State>, steps: seq<J.Step>, i: nat, j: nat,
                             k: C.ClientKey, h: G.HandlerId, q: nat)
    requires J.IsRun(cfg, run, steps) && i <= j < |run|
    requires k in run[i].gateways && h !in run[i].gateways[k].handlers
    requires k in run[j].gateways && IsRequestOf(run[j].cluster.log, q, k, run[j].gateways[k], h)
    ensures q >= |run[i].cluster.log|
  {
    hide J.IsRun, G.Inv, CS.Consistent, J.Linked, CT.Grows, GS.Grows, CT.IsRequest;
    RunState(cfg, run, steps, i, k);
    RunState(cfg, run, steps, j, k);
    J.RunGrows(cfg, run, steps, i, j);
    var st, st' := run[i].cluster, run[j].cluster;
    var m := EntryWasSent(st', k, run[j].gateways[k], q);
    SentLater(st, st', k, run[i].gateways[k], run[j].gateways[k], h, m);
    if q < |st.log| {
      WasRequest(st, st', k, q, m);
      CT.DecidedWasIngested(st, q, k, m);
    }
  }

  /** An entry already in the log was then already the same message of its client. */
  lemma WasRequest(st: C.State, st': C.State, k: C.ClientKey, q: nat, m: nat)
    requires CT.Grows(st, st') && CS.Consistent(st, k) && q < |st.log| && q < |st'.log|
    requires q < |st'.order| && st'.order[q] < |st'.appended| && C.IsBy(st'.log[q], k)
    requires m == CS.Rank(st'.appended, st'.order[q], k)
    ensures CT.IsRequest(st, q, k, m)
  {
    hide CS.Rank, KeepsPromises, C.ClientOk, StreamTo;
    CT.EntriesStay(st, st', q, k, m);
  }

  /** In particular two successes in turn are both sequential results, in that order. */
  lemma SuccessesInOrder(cfg: C.Config, run: seq<J.State>, steps: seq<J.Step>, i: nat, j: nat,
                         kA: C.ClientKey, hA: G.HandlerId, kB: C.ClientKey, hB: G.HandlerId)
    requires J.IsRun(cfg, run, steps) && i <= j < |run|
    requires kA in run[i].gateways && Succeeded(run[i].gateways[kA], hA)
    requires kB in run[i].gateways && hB !in run[i].gateways[kB].handlers
    requires kB in run[j].gateways && Succeeded(run[j].gateways[kB], hB)
    ensures exists p: nat, q: nat ::
      && p < q
      && AnsweredFrom(run[j].cluster.log, p, kA, run[i].gateways[kA].handlers[hA])
      && AnsweredFrom(run[j].cluster.log, q, kB, run[j].gateways[kB].handlers[hB])
  {
    hide J.IsRun;
    SuccessIsSequential(cfg, run, steps, j, kB, hB);
    var q: nat :| AnsweredFrom(run[j].cluster.log, q, kB, run[j].gateways[kB].handlers[hB]);
    HttpLinearizable(cfg, run, steps, i, j, kA, hA, kB, hB, q);
  }

  /** The request of a handler yet to enter has not been taken in by the server. */
  lemma SentLater(st: C.State, st': C.State, k: C.ClientKey, g: G.State, g': G.State, h: G.HandlerId, m: nat)
    requires CS.Consistent(st, k) && G.Inv(g) && G.Inv(g') && J.Linked(st, k, g) && GS.Grows(g, g')
    requires h !in g.handlers && h in g'.handlers && G.HasId(g'.handlers[h])
    requires m < |g'.toServer| && g'.toServer[m].id == g'.handlers[h].id
    ensures m >= st.clients[k].ingested
  {
    hide StreamTo, C.ClientOk, G.Inv, C.LogOk, KeepsPromises;
    NotSentBeforeEntering(g, g', h, m);
    WhatWasAppended(st, k);
  }

  lemma StillAnsweredFrom(st: C.State, st': C.State, p: nat, k: C.ClientKey, x: G.Handler)
    requires CT.Grows(st, st') && AnsweredFrom(st.log, p, k, x)
    ensures AnsweredFrom(st'.log, p, k, x)
  {
    assert st'.log[..p] == st.log[..p];
  }

  predicate EntryOf(c: Command, k: C.ClientKey, x: G.Handler) {
    c == Command(k.id, k.server, x.id, x.cmd)
  }

  /** Whatever callers are told, a request runs at most once: each log entry of a gateway is the command of a
      handler that sent it, and no other entry of that gateway has its id. */
  lemma RequestsRunAtMostOnce(cfg: C.Config, run: seq<J.State>, steps: seq<J.Step>, i: nat, k: C.ClientKey, p: nat)
    requires J.IsRun(cfg, run, steps) && i < |run| && k in run[i].gateways
    requires p < |run[i].cluster.log| && C.IsBy(run[i].cluster.log[p], k)
    ensures var log, handlers := run[i].cluster.log, run[i].gateways[k].handlers;
      && (exists h :: h in handlers && G.HasSent(handlers[h]) && EntryOf(log[p], k, handlers[h]))
      && (forall q: nat :: q < |log| && q != p && C.IsBy(log[q], k) ==> log[q].id != log[p].id)
  {
    hide J.IsRun, CS.Consistent, J.Linked, G.PendingOk, G.ReaderOk, G.ChannelOk, G.OutcomeOk;
    RunState(cfg, run, steps, i, k);
    var st, g := run[i].cluster, run[i].gateways[k];
    var m := EntryWasSent(st, k, g, p);
    assert G.HasSender(g.handlers, g.toServer[m]);
    var h :| G.SentBy(g.handlers, g.toServer[m], h);
    assert EntryOf(st.log[p], k, g.handlers[h]);
    forall q: nat | q < |st.log| && q != p && C.IsBy(st.log[q], k)
      ensures st.log[q].id != st.log[p].id
    {
      EntriesDiffer(st, k, g, if p < q then p else q, if p < q then q else p);
    }
  }

  /** A caller told that the service is unavailable (503) can be sure: its request never runs, not even later. */
  lemma UnavailableNeverRuns(cfg: C.Config, run: seq<J.State>, steps: seq<J.Step>, i: nat, j: nat,
                             k: C.ClientKey, h: G.HandlerId, p: nat)
    requires J.IsRun(cfg, run, steps) && i <= j < |run|
    requires k in run[i].gateways && Told(run[i].gateways[k], h, Error(503))
    requires p < |run[j].cluster.log| && C.IsBy(run[j].cluster.log[p], k)
    ensures run[j].cluster.log[p].id != run[i].gateways[k].handlers[h].id
  {
    hide J.IsRun, CS.Consistent, J.Linked, CT.Grows, G.PendingOk, G.ReaderOk, G.ChannelOk, G.OutcomeOk;
    J.RunGrows(cfg, run, steps, i, j);
    RunState(cfg, run, steps, j, k);
    RequestsRunAtMostOnce(cfg, run, steps, j, k, p);
    var handlers := run[j].gateways[k].handlers;
    var o :| o in handlers && G.HasSent(handlers[o]) && EntryOf(run[j].cluster.log[p], k, handlers[o]);
    assert handlers[h] == run[i].gateways[k].handlers[h];
    assert o != h && G.HasId(handlers[o]) && G.HasId(handlers[h]);
  }

  // ---------------------------------------------------------------- which answer a caller gets

  /** What a step of the whole system does to one gateway: nothing, a step of its own, or taking a message that is
      then lost and stopping the writer. */
  lemma GatewayMoves(cfg: C.Config, j: J.State, step: J.Step, k: C.ClientKey) returns (s: G.Step)
    requires J.Enabled(cfg, j, step) && k in j.gateways && k in J.Do(cfg, j, step).gateways
    ensures var g, g' := j.gateways[k], J.Do(cfg, j, step).gateways[k];
      || g' == g
      || (G.Enabled(g, s) && g' == G.Do(g, s) && (step.InGateway? && step.k == k ==> s == step.gStep))
      || (step == J.ForwardFails(k) && G.Enabled(g, G.WriterTakes)
          && g' == G.Do(G.Do(g, G.WriterTakes), G.WriterStops))
    ensures step.InGateway? && step.k == k ==>
      s == step.gStep && G.Enabled(j.gateways[k], s) && J.Do(cfg, j, step).gateways[k] == G.Do(j.gateways[k], s)
    ensures s.TimesOut? || s.Enter? ==> step == J.InGateway(k, s)
  {
    hide C.Enabled, C.Do, G.Do;
    s := G.WriterStops;
    match step {
      case InCluster(_) =>
      case InGateway(x, own) =>
        if x == k {
          s := own;
        }
      case Forward(x) =>
        if x == k {
          s := G.WriterTakes;
        }
      case ForwardFails(_) =>
      case Return(x) =>
        if x == k {
          s := J.Reading(j, k);
        }
    }
  }

  lemma SettledStays(cfg: C.Config, j: J.State, step: J.Step, k: C.ClientKey, h: G.HandlerId, o: G.Outcome)
    requires J.Enabled(cfg, j, step) && k in j.gateways && k in J.Do(cfg, j, step).gateways
    requires G.Inv(j.gateways[k]) && GO.Settled(j.gateways[k], h, o)
    ensures GO.Settled(J.Do(cfg, j, step).gateways[k], h, o)
  {
    hide J.Enabled, J.Do, G.Inv, G.Enabled, G.Do, GO.Settled;
    var s := GatewayMoves(cfg, j, step, k);
    var g, g' := j.gateways[k], J.Do(cfg, j, step).gateways[k];
    if G.Enabled(g, s) && g' == G.Do(g, s) {
      GO.SettledStays(g, s, h, o);
    } else if g' != g {
      var mid := G.Do(g, G.WriterTakes);
      GS.StepKeepsInv(g, G.WriterTakes);
      GO.SettledStays(g, G.WriterTakes, h, o);
      StoppingIsEnabled(mid);
      GO.SettledStays(mid, G.WriterStops, h, o);
    }
  }

  lemma StoppingIsEnabled(g: G.State)
    ensures G.Enabled(g, G.WriterStops)
  {
  }

  lemma {:induction false} SettledInRun(cfg: C.Config, run: seq<J.State>, steps: seq<J.Step>, i: nat, j: nat,
                                        k: C.ClientKey, h: G.HandlerId, o: G.Outcome)
    requires J.IsRun(cfg, run, steps) && i <= j < |run| && k in run[i].gateways && GO.Settled(run[i].gateways[k], h, o)
    ensures k in run[j].gateways && GO.Settled(run[j].gateways[k], h, o)
    decreases j - i
  {
    hide J.Init, J.Inv, J.Enabled, J.Do, G.Inv, GO.Settled, CT.Grows, GS.Grows, CS.Consistent, J.Linked;
    J.RunGrows(cfg, run, steps, i, j);
    if i < j {
      SettledInRun(cfg, run, steps, i, j - 1, k, h, o);
      RunState(cfg, run, steps, j - 1, k);
      SettledStays(cfg, run[j - 1], steps[j - 1], k, h, o);
    }
  }

  /** A reply that has reached its handler always becomes a successful answer, with the sequential result of the
      caller's command; a lost connection is told as 500 and a writer gone before sending as 503. */
  lemma AnswerFollows(cfg: C.Config, run: seq<J.State>, steps: seq<J.Step>, i: nat, j: nat,
                      k: C.ClientKey, h: G.HandlerId)
    requires J.IsRun(cfg, run, steps) && i <= j < |run| && k in run[i].gateways && k in run[j].gateways
    requires h in run[j].gateways[k].handlers && run[j].gateways[k].handlers[h].pc.Done?
    ensures var g, g', log := run[i].gateways[k], run[j].gateways[k], run[j].cluster.log;
      && (forall m :: GO.ChannelIs(g, h, G.Full(m)) ==>
            g'.handlers[h].pc.outcome == G.Success(m) && exists p: nat :: AnsweredFrom(log, p, k, g'.handlers[h]))
      && (GO.ChannelIs(g, h, G.Closed) ==> Told(g', h, Error(500)))
      && (G.At(g, h, G.Inserted) && !g.writerAlive ==> Told(g', h, Error(503)))
  {
    hide J.IsRun, AnsweredFrom;
    var g, g' := run[i].gateways[k], run[j].gateways[k];
    forall o | GO.Settled(g, h, o)
      ensures g'.handlers[h].pc.outcome == o
    {
      SettledInRun(cfg, run, steps, i, j, k, h, o);
    }
    assert GO.ChannelIs(g, h, G.Closed) ==> GO.Settled(g, h, G.Failure(G.ChannelClosed));
    assert G.At(g, h, G.Inserted) && !g.writerAlive ==> GO.Settled(g, h, G.Failure(G.SenderUnavailable));
    forall m | GO.ChannelIs(g, h, G.Full(m))
      ensures g'.handlers[h].pc.outcome == G.Success(m)
      ensures exists p: nat :: AnsweredFrom(run[j].cluster.log, p, k, g'.handlers[h])
    {
      assert GO.Settled(g, h, G.Success(m));
      SuccessIsSequential(cfg, run, steps, j, k, h);
    }
  }

  /** Error answers and outcomes correspond one to one. */
  lemma ErrorsAreFailures(cfg: C.Config, run: seq<J.State>, steps: seq<J.Step>, j: nat, k: C.ClientKey, h: G.HandlerId)
    requires J.IsRun(cfg, run, steps) && j < |run| && k in run[j].gateways
    requires h in run[j].gateways[k].handlers && run[j].gateways[k].handlers[h].pc.Done?
    ensures var g := run[j].gateways[k];
      var o := g.handlers[h].pc.outcome;
      && (Told(g, h, Error(503)) <==> o == G.Failure(G.SenderUnavailable))
      && (Told(g, h, Error(500)) <==> o == G.Failure(G.ChannelClosed))
      && (Told(g, h, Error(504)) <==> o == G.Failure(G.Timeout))
  {
    hide J.IsRun;
    if run[j].gateways[k].handlers[h].pc.outcome.Success? {
      SuccessIsSequential(cfg, run, steps, j, k, h);
    }
  }

  /** Whoever is told of a lost connection (500) was sent no reply before the reader gave up. */
  lemma ServerErrorMeansNoReply(cfg: C.Config, run: seq<J.State>, steps: seq<J.Step>, j: nat,
                                k: C.ClientKey, h: G.HandlerId)
    requires J.IsRun(cfg, run, steps) && j < |run| && k in run[j].gateways && Told(run[j].gateways[k], h, Error(500))
    ensures var g := run[j].gateways[k];
      g.reader == G.Cleared && G.FirstReply(g.fromServer, g.handlers[h].since, g.handlers[h].id) == None
  {
    hide J.IsRun, CS.Consistent, J.Linked, G.FirstReply;
    ErrorsAreFailures(cfg, run, steps, j, k, h);
    RunState(cfg, run, steps, j, k);
    assert G.OutcomeOk(run[j].gateways[k], h);
  }

  /** Only a handler whose channel was empty when its timeout struck is answered 504. */
  lemma OnlyEmptyTimesOut(cfg: C.Config, run: seq<J.State>, steps: seq<J.Step>, j: nat, k: C.ClientKey, h: G.HandlerId)
    returns (i: nat)
    requires J.IsRun(cfg, run, steps) && j < |run| && k in run[j].gateways && Told(run[j].gateways[k], h, Error(504))
    ensures i < j && i < |steps| && k in run[i].gateways
    ensures steps[i] == J.InGateway(k, G.TimesOut(h)) && GO.ChannelIs(run[i].gateways[k], h, G.Empty)
  {
    hide J.IsRun;
    ErrorsAreFailures(cfg, run, steps, j, k, h);
    i := TimeoutStep(cfg, run, steps, j, k, h);
  }

  lemma {:induction false} TimeoutStep(cfg: C.Config, run: seq<J.State>, steps: seq<J.Step>, j: nat,
                                       k: C.ClientKey, h: G.HandlerId) returns (i: nat)
    requires J.IsRun(cfg, run, steps) && j < |run| && k in run[j].gateways && GO.HasTimedOut(run[j].gateways[k], h)
    ensures i < j && i < |steps| && k in run[i].gateways
    ensures steps[i] == J.InGateway(k, G.TimesOut(h)) && GO.ChannelIs(run[i].gateways[k], h, G.Empty)
  {
    hide J.Enabled, J.Do, GO.HasTimedOut, GO.ChannelIs;
    GatewaysStay(cfg, run, steps, j, k);
    NobodyAtFirst(cfg, run, steps, k);
    if GO.HasTimedOut(run[j - 1].gateways[k], h) {
      i := TimeoutStep(cfg, run, steps, j - 1, k, h);
    } else {
      i := j - 1;
      TimingOut(cfg, run[i], steps[i], k, h);
    }
  }

  lemma TimingOut(cfg: C.Config, j: J.State, step: J.Step, k: C.ClientKey, h: G.HandlerId)
    requires J.Enabled(cfg, j, step) && k in j.gateways && k in J.Do(cfg, j, step).gateways
    requires GO.HasTimedOut(J.Do(cfg, j, step).gateways[k], h) && !GO.HasTimedOut(j.gateways[k], h)
    ensures step == J.InGateway(k, G.TimesOut(h)) && GO.ChannelIs(j.gateways[k], h, G.Empty)
  {
    hide J.Enabled, J.Do, G.Enabled, G.Do, GO.HasTimedOut, GO.ChannelIs;
    var s := GatewayMoves(cfg, j, step, k);
    var g, g' := j.gateways[k], J.Do(cfg, j, step).gateways[k];
    if G.Enabled(g, s) && g' == G.Do(g, s) {
      GO.TimingOut(g, s, h);
    } else {
      WritersTimeNobodyOut(g, h);
    }
  }

  lemma WritersTimeNobodyOut(g: G.State, h: G.HandlerId)
    ensures G.Enabled(g, G.WriterTakes) && GO.HasTimedOut(G.Do(G.Do(g, G.WriterTakes), G.WriterStops), h) ==>
      GO.HasTimedOut(g, h)
  {
  }

  lemma NobodyAtFirst(cfg: C.Config, run: seq<J.State>, steps: seq<J.Step>, k: C.ClientKey)
    requires J.IsRun(cfg, run, steps) && k in run[0].gateways
    ensures run[0].gateways[k].handlers == map[] && forall h :: !GO.HasTimedOut(run[0].gateways[k], h)
  {
    hide C.Init;
  }

  /** The same gateways are there from the start. */
  lemma GatewaysStay(cfg: C.Config, run: seq<J.State>, steps: seq<J.Step>, j: nat, k: C.ClientKey)
    requires J.IsRun(cfg, run, steps) && j < |run| && k in run[j].gateways
    ensures k in run[0].gateways && (j > 0 ==> k in run[j - 1].gateways)
  {
    hide J.IsRun, CT.Grows, GS.Grows;
    J.RunGrows(cfg, run, steps, 0, j);
    if j > 0 {
      J.RunGrows(cfg, run, steps, j - 1, j);
    }
  }

  /** A handler's command is the one its caller came with. */
  lemma {:induction false} CommandIsCallers(cfg: C.Config, run: seq<J.State>, steps: seq<J.Step>, j: nat,
                                            k: C.ClientKey, h: G.HandlerId) returns (i: nat)
    requires J.IsRun(cfg, run, steps) && j < |run| && k in run[j].gateways && h in run[j].gateways[k].handlers
    ensures i < j && i < |steps| && k in run[i].gateways && h !in run[i].gateways[k].handlers
    ensures steps[i] == J.InGateway(k, G.Enter(h, run[j].gateways[k].handlers[h].cmd))
  {
    hide J.Enabled, J.Do;
    GatewaysStay(cfg, run, steps, j, k);
    NobodyAtFirst(cfg, run, steps, k);
    Entering(cfg, run[j - 1], steps[j - 1], k, h);
    if h in run[j - 1].gateways[k].handlers {
      i := CommandIsCallers(cfg, run, steps, j - 1, k, h);
    } else {
      i := j - 1;
    }
  }

  lemma Entering(cfg: C.Config, j: J.State, step: J.Step, k: C.ClientKey, h: G.HandlerId)
    requires J.Enabled(cfg, j, step) && k in j.gateways && k in J.Do(cfg, j, step).gateways
    requires h in J.Do(cfg, j, step).gateways[k].handlers
    ensures var g, g' := j.gateways[k], J.Do(cfg, j, step).gateways[k];
      if h in g.handlers then g'.handlers[h].cmd == g.handlers[h].cmd
      else step == J.InGateway(k, G.Enter(h, g'.handlers[h].cmd))
  {
    hide J.Enabled, J.Do, G.Enabled, G.Do;
    var s := GatewayMoves(cfg, j, step, k);
    var g, g' := j.gateways[k], J.Do(cfg, j, step).gateways[k];
    if G.Enabled(g, s) && g' == G.Do(g, s) {
      GO.StepKeepsCommand(g, s, h);
    } else if g' != g {
      WritersChangeNobody(g);
    }
  }

  lemma WritersChangeNobody(g: G.State)
    ensures G.Enabled(g, G.WriterTakes) ==> G.Do(G.Do(g, G.WriterTakes), G.WriterStops).handlers == g.handlers
  {
  }
}
