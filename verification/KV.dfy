/** The command language and messages of the store (src/common.rs), and the
    plain database every replica keeps (src/server/database.rs). */
module KV {

  datatype Option<+T> = None | Some(value: T)

  type ClientId = nat
  type NodeId = nat
  type CommandId = nat
  type Timestamp = int
  type Store = map<string, string>

  datatype KVCommand = Put(key: string, value: string) | Delete(key: string) | Get(key: string)

  datatype Command = Command(clientId: ClientId, coordinatorId: NodeId, id: CommandId, kvCmd: KVCommand)

  datatype ClientMessage = Append(id: CommandId, kvCmd: KVCommand)

  datatype ServerMessage =
    | Write(id: CommandId)
    | Read(id: CommandId, value: Option<string>)
    | StartSignal(time: Timestamp)

  /** What a command does to the store. */
  function Apply(db: Store, cmd: KVCommand): Store {
    match cmd
    case Put(k, v) => db[k := v]
    case Delete(k) => db - {k}
    case Get(_) => db
  }

  /** What a command hands back: nothing for a write, the looked-up value for a read. */
  function Result(db: Store, cmd: KVCommand): Option<Option<string>> {
    match cmd
    case Get(k) => Some(Lookup(db, k))
    case _ => None
  }

  function Lookup(db: Store, k: string): Option<string> {
    if k in db then Some(db[k]) else None
  }

  /** The sequential semantics: the store after applying `cmds` in order to `db`. */
  function Replay(db: Store, cmds: seq<KVCommand>): Store {
    if |cmds| == 0 then db else Apply(Replay(db, cmds[..|cmds| - 1]), cmds[|cmds| - 1])
  }

  function KvCmds(cmds: seq<Command>): (r: seq<KVCommand>)
    ensures |r| == |cmds|
  {
    seq(|cmds|, i requires 0 <= i < |cmds| => cmds[i].kvCmd)
  }

  /** The store of src/server/database.rs, updated in place. */
  class Database {
    var db: Store

    constructor ()
      ensures db == map[]
    {
      db := map[];
    }

    method HandleCommand(command: KVCommand) returns (read: Option<Option<string>>)
      modifies this
      ensures db == Apply(old(db), command)
      ensures read == Result(old(db), command)
    {
      match command {
        case Put(key, value) =>
          db := db[key := value];
          read := None;
        case Delete(key) =>
          db := map k | k in db && k != key :: db[k];
          read := None;
        case Get(key) =>
          read := Some(if key in db then Some(db[key]) else None);
      }
    }
  }

  // ---------------------------------------------------------------- laws of replay

  lemma {:induction false} ReplayConcat(db: Store, a: seq<KVCommand>, b: seq<KVCommand>)
    ensures Replay(db, a + b) == Replay(Replay(db, a), b)
  {
    if |b| == 0 {
      assert a + b == a;
    } else {
      var n := |b| - 1;
      ReplayConcat(db, a, b[..n]);
      assert (a + b)[..|a + b| - 1] == a + b[..n];
    }
  }

  predicate Touches(cmd: KVCommand, k: string) {
    !cmd.Get? && cmd.key == k
  }

  /** `i` is the last position at which `cmds` writes key `k`. */
  predicate IsLastWrite(cmds: seq<KVCommand>, k: string, i: int) {
    0 <= i < |cmds| && Touches(cmds[i], k) && forall j :: i < j < |cmds| ==> !Touches(cmds[j], k)
  }

  lemma AppliedAtKey(db: Store, cmd: KVCommand, k: string)
    ensures Lookup(Apply(db, cmd), k) ==
      if !Touches(cmd, k) then Lookup(db, k) else if cmd.Put? then Some(cmd.value) else None
  {
  }

  /** Replay is last-writer-wins, key by key: a key's final value is what its last write
      put there, and a key nobody wrote keeps its old value. */
  lemma {:induction false} LastWriterWins(db: Store, cmds: seq<KVCommand>, k: string)
    ensures forall i :: IsLastWrite(cmds, k, i) ==>
      Lookup(Replay(db, cmds), k) == if cmds[i].Put? then Some(cmds[i].value) else None
    ensures (forall i :: 0 <= i < |cmds| ==> !Touches(cmds[i], k)) ==>
      Lookup(Replay(db, cmds), k) == Lookup(db, k)
  {
    hide Apply, Lookup, Touches;
    if |cmds| != 0 {
      var n := |cmds| - 1;
      LastWriterWins(db, cmds[..n], k);
      AppliedAtKey(Replay(db, cmds[..n]), cmds[n], k);
      forall i | IsLastWrite(cmds, k, i)
        ensures Lookup(Replay(db, cmds), k) == if cmds[i].Put? then Some(cmds[i].value) else None
      {
        if i < n {
          assert IsLastWrite(cmds[..n], k, i);
        }
      }
    }
  }
}
