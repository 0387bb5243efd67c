/** What one server does to its replica and what it hands to its clients (src/server/server.rs),
    as functions on values. The Servers module implements them; the Cluster module runs many of them. */
module Replicas {
  import opened KV
  import opened Seqs

  /** A message handed to `send_to_client`. */
  datatype Handed = Handed(to: ClientId, msg: ServerMessage)

  datatype Replica = Replica(db: Store, handed: seq<Handed>)

  /** `decided` is the server's view of the decided log; its first `applied` entries are in the database. */
  datatype Server = Server(decided: seq<Command>, applied: nat, replica: Replica)

  function Reply(db: Store, c: Command): ServerMessage {
    match Result(db, c.kvCmd)
    case Some(found) => ServerMessage.Read(c.id, found)
    case None => ServerMessage.Write(c.id)
  }

  /** Apply one decided command; only its coordinator answers the client. */
  function Execute(me: NodeId, r: Replica, c: Command): Replica {
    Replica(Apply(r.db, c.kvCmd),
            r.handed + (if c.coordinatorId == me then [Handed(c.clientId, Reply(r.db, c))] else []))
  }

  function ExecuteAll(me: NodeId, r: Replica, cmds: seq<Command>): Replica {
    if |cmds| == 0 then r else Execute(me, ExecuteAll(me, r, cmds[..|cmds| - 1]), cmds[|cmds| - 1])
  }

  /** `handle_decided_entries`: apply whatever is decided and not applied yet. */
  function CatchUp(me: NodeId, s: Server): Server {
    if s.applied < |s.decided|
    then Server(s.decided, |s.decided|, ExecuteAll(me, s.replica, s.decided[s.applied..]))
    else s
  }

  /** One start signal for each of the clients 1..n. */
  function StartSignals(n: nat, t: Timestamp): seq<Handed> {
    if n == 0 then [] else StartSignals(n - 1, t) + [Handed(n, StartSignal(t))]
  }

  function Signal(s: Server, numClients: nat, t: Timestamp): Server {
    s.(replica := s.replica.(handed := s.replica.handed + StartSignals(numClients, t)))
  }

  /** Everything handed to one client, in order. */
  function StreamTo(handed: seq<Handed>, c: ClientId): seq<ServerMessage> {
    if |handed| == 0 then []
    else
      var h := handed[|handed| - 1];
      StreamTo(handed[..|handed| - 1], c) + (if h.to == c then [h.msg] else [])
  }

  /** The command replies of a stream, and its start signals. */
  function Replies(stream: seq<ServerMessage>): seq<ServerMessage> {
    if |stream| == 0 then []
    else
      var m := stream[|stream| - 1];
      Replies(stream[..|stream| - 1]) + (if m.StartSignal? then [] else [m])
  }

  function Signals(stream: seq<ServerMessage>): seq<ServerMessage> {
    if |stream| == 0 then []
    else
      var m := stream[|stream| - 1];
      Signals(stream[..|stream| - 1]) + (if m.StartSignal? then [m] else [])
  }

  /** The log positions whose command was coordinated by `me` for client `c`, in increasing order. */
  function Positions(log: seq<Command>, me: NodeId, c: ClientId): seq<nat> {
    if |log| == 0 then []
    else
      var n := |log| - 1;
      Positions(log[..n], me, c) + (if log[n].coordinatorId == me && log[n].clientId == c then [n] else [])
  }

  /** The reply the sequential semantics gives to the command at log position `p`. */
  function ReplyAt(log: seq<Command>, p: nat): ServerMessage
    requires p < |log|
  {
    Reply(Replay(map[], KvCmds(log[..p])), log[p])
  }

  /** `stream` answers, once each and in log order, exactly the commands of the log that
      `me` coordinates for client `c`. */
  ghost predicate AnswersExactly(stream: seq<ServerMessage>, log: seq<Command>, me: NodeId, c: ClientId) {
    var ps := Positions(log, me, c);
    && |stream| == |ps|
    && forall r :: 0 <= r < |ps| ==> ps[r] < |log| && stream[r] == ReplyAt(log, ps[r])
  }

  // ---------------------------------------------------------------- positions

  lemma {:induction false} PositionsAreRight(log: seq<Command>, me: NodeId, c: ClientId)
    ensures var ps := Positions(log, me, c);
      && (forall i, j :: 0 <= i < j < |ps| ==> ps[i] < ps[j])
      && (forall p :: p in ps <==> 0 <= p < |log| && log[p].coordinatorId == me && log[p].clientId == c)
  {
    if |log| > 0 {
      var n := |log| - 1;
      PositionsAreRight(log[..n], me, c);
      var before := Positions(log[..n], me, c);
      forall i | 0 <= i < |before|
        ensures before[i] < n
      {
        assert before[i] in before;
      }
    }
  }

  // ---------------------------------------------------------------- filters

  lemma {:induction false} StreamConcat(a: seq<Handed>, b: seq<Handed>, c: ClientId)
    ensures StreamTo(a + b, c) == StreamTo(a, c) + StreamTo(b, c)
  {
    if |b| == 0 {
      assert a + b == a;
    } else {
      StreamConcat(a, b[..|b| - 1], c);
      assert (a + b)[..|a + b| - 1] == a + b[..|b| - 1];
    }
  }

  lemma {:induction false} SplitConcat(a: seq<ServerMessage>, b: seq<ServerMessage>)
    ensures Replies(a + b) == Replies(a) + Replies(b)
    ensures Signals(a + b) == Signals(a) + Signals(b)
  {
    if |b| == 0 {
      assert a + b == a;
    } else {
      SplitConcat(a, b[..|b| - 1]);
      assert (a + b)[..|a + b| - 1] == a + b[..|b| - 1];
    }
  }

  lemma {:induction false} StartSignalsReachEachOnce(n: nat, t: Timestamp, c: ClientId)
    ensures StreamTo(StartSignals(n, t), c) == if 1 <= c <= n then [StartSignal(t)] else []
  {
    if n > 0 {
      StartSignalsReachEachOnce(n - 1, t, c);
      StreamConcat(StartSignals(n - 1, t), [Handed(n, StartSignal(t))], c);
      assert [Handed(n, StartSignal(t))][..0] == [];
    }
  }

  // ---------------------------------------------------------------- applying the log

  lemma {:induction false} ExecuteAllConcat(me: NodeId, r: Replica, a: seq<Command>, b: seq<Command>)
    ensures ExecuteAll(me, r, a + b) == ExecuteAll(me, ExecuteAll(me, r, a), b)
  {
    if |b| == 0 {
      assert a + b == a;
    } else {
      ExecuteAllConcat(me, r, a, b[..|b| - 1]);
      assert (a + b)[..|a + b| - 1] == a + b[..|b| - 1];
    }
  }

  function ExecuteChunks(me: NodeId, r: Replica, chunks: seq<seq<Command>>): Replica {
    if |chunks| == 0 then r else ExecuteAll(me, ExecuteChunks(me, r, chunks[..|chunks| - 1]), chunks[|chunks| - 1])
  }

  /** However the decided log is cut into chunks, database and replies come out the same. */
  lemma {:induction false} ChunkIndependence(me: NodeId, r: Replica, chunks: seq<seq<Command>>)
    ensures ExecuteChunks(me, r, chunks) == ExecuteAll(me, r, Flatten(chunks))
  {
    if |chunks| > 0 {
      ChunkIndependence(me, r, chunks[..|chunks| - 1]);
      ExecuteAllConcat(me, r, Flatten(chunks[..|chunks| - 1]), chunks[|chunks| - 1]);
    }
  }

  /** A replica that has applied `done` and goes on to apply `todo`: it replays the whole log, and its
      replies to each client answer exactly that client's commands. Its start signals are untouched. */
  lemma {:induction false} ExecuteKeepsPromises(me: NodeId, r: Replica, log: seq<Command>, todo: seq<Command>,
                                                c: ClientId)
    requires r.db == Replay(map[], KvCmds(log))
    requires AnswersExactly(Replies(StreamTo(r.handed, c)), log, me, c)
    ensures var r' := ExecuteAll(me, r, todo);
      && r'.db == Replay(map[], KvCmds(log + todo))
      && AnswersExactly(Replies(StreamTo(r'.handed, c)), log + todo, me, c)
      && StreamTo(r.handed, c) <= StreamTo(r'.handed, c)
      && Signals(StreamTo(r'.handed, c)) == Signals(StreamTo(r.handed, c))
  {
    if |todo| == 0 {
      assert log + todo == log;
    } else {
      var n := |todo| - 1;
      ExecuteKeepsPromises(me, r, log, todo[..n], c);
      assert (log + todo[..n]) + [todo[n]] == log + todo;
      ExecuteOneKeepsPromises(me, ExecuteAll(me, r, todo[..n]), log + todo[..n], todo[n], c);
    }
  }

  /** Extending the log by one command extends the owed answers by at most its own reply. */
  lemma AnswersStep(stream: seq<ServerMessage>, log: seq<Command>, cmd: Command, me: NodeId, c: ClientId)
    requires AnswersExactly(stream, log, me, c)
    ensures var mine := cmd.coordinatorId == me && cmd.clientId == c;
      var reply := Reply(Replay(map[], KvCmds(log)), cmd);
      AnswersExactly(stream + (if mine then [reply] else []), log + [cmd], me, c)
  {
    var log' := log + [cmd];
    assert log'[..|log|] == log;
    PositionsAreRight(log, me, c);
    var ps := Positions(log, me, c);
    forall r | 0 <= r < |ps|
      ensures ps[r] < |log| && ReplyAt(log', ps[r]) == ReplyAt(log, ps[r])
    {
      assert ps[r] in ps;
      assert log'[..ps[r]] == log[..ps[r]];
    }
  }

  /** Handing one reply over extends one client's stream, and no signals. */
  lemma HandingAReply(handed: seq<Handed>, h: Handed, c: ClientId)
    requires !h.msg.StartSignal?
    ensures var s, s' := StreamTo(handed, c), StreamTo(handed + [h], c);
      && s <= s' && Signals(s') == Signals(s)
      && Replies(s') == Replies(s) + (if h.to == c then [h.msg] else [])
  {
    assert (handed + [h])[..|handed|] == handed;
    var s := StreamTo(handed, c);
    if h.to == c {
      assert StreamTo(handed + [h], c) == s + [h.msg];
      assert (s + [h.msg])[..|s|] == s;
    } else {
      assert StreamTo(handed + [h], c) == s;
    }
  }

  lemma ExecuteOneKeepsPromises(me: NodeId, r: Replica, log: seq<Command>, cmd: Command, c: ClientId)
    requires r.db == Replay(map[], KvCmds(log))
    requires AnswersExactly(Replies(StreamTo(r.handed, c)), log, me, c)
    ensures var r' := Execute(me, r, cmd);
      && r'.db == Replay(map[], KvCmds(log + [cmd]))
      && AnswersExactly(Replies(StreamTo(r'.handed, c)), log + [cmd], me, c)
      && StreamTo(r.handed, c) <= StreamTo(r'.handed, c)
      && Signals(StreamTo(r'.handed, c)) == Signals(StreamTo(r.handed, c))
  {
    assert Apply(r.db, cmd.kvCmd) == Replay(map[], KvCmds(log + [cmd])) by {
      assert KvCmds(log + [cmd])[..|log|] == KvCmds(log);
    }
    AnswersStep(Replies(StreamTo(r.handed, c)), log, cmd, me, c);
    HandingAReply(r.handed, Handed(cmd.clientId, Reply(r.db, cmd)), c);
    if cmd.coordinatorId != me {
      assert Execute(me, r, cmd).handed == r.handed;
    }
  }
}
