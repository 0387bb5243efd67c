/** KVSnapshot (src/common.rs): a log prefix or a batch folded into live keys and tombstones. */
module Snapshots {
  import opened KV

  /** The abstract value of a KVSnapshot. */
  datatype Snapshot = Snapshot(live: Store, tombs: seq<string>)

  /** One iteration of the loop in `create`: a tombstone is kept only when the delete found nothing. */
  function Absorb(s: Snapshot, cmd: KVCommand): Snapshot {
    match cmd
    case Put(k, v) => s.(live := s.live[k := v])
    case Delete(k) => if k in s.live then s.(live := s.live - {k}) else s.(tombs := s.tombs + [k])
    case Get(_) => s
  }

  function AbsorbAll(cmds: seq<KVCommand>): Snapshot {
    if |cmds| == 0 then Snapshot(map[], []) else Absorb(AbsorbAll(cmds[..|cmds| - 1]), cmds[|cmds| - 1])
  }

  /** `Vec::retain` with the test used by `create`. */
  function RetainAbsent(tombs: seq<string>, live: Store): seq<string> {
    if |tombs| == 0 then []
    else RetainAbsent(tombs[..|tombs| - 1], live) + (if tombs[|tombs| - 1] in live then [] else [tombs[|tombs| - 1]])
  }

  function SnapshotOf(cmds: seq<KVCommand>): Snapshot {
    var raw := AbsorbAll(cmds);
    Snapshot(raw.live, RetainAbsent(raw.tombs, raw.live))
  }

  function TombSet(tombs: seq<string>): set<string> {
    set k | k in tombs
  }

  function Merged(base: Snapshot, delta: Snapshot): Snapshot {
    Snapshot((base.live + delta.live) - TombSet(delta.tombs), [])
  }

  class KVSnapshot {
    var snapshotted: Store
    var deletedKeys: seq<string>

    ghost function View(): Snapshot
      reads this
    {
      Snapshot(snapshotted, deletedKeys)
    }

    constructor Create(entries: seq<Command>)
      ensures View() == SnapshotOf(KvCmds(entries))
    {
      snapshotted, deletedKeys := map[], [];
      new;
      var i := 0;
      while i < |entries|
        invariant 0 <= i <= |entries|
        invariant View() == AbsorbAll(KvCmds(entries)[..i])
      {
        assert KvCmds(entries)[..i + 1][..i] == KvCmds(entries)[..i];
        match entries[i].kvCmd {
          case Put(key, value) =>
            snapshotted := snapshotted[key := value];
          case Delete(key) =>
            if key in snapshotted {
              snapshotted := snapshotted - {key};
            } else {
              deletedKeys := deletedKeys + [key];
            }
          case Get(_) =>
        }
        i := i + 1;
      }
      assert KvCmds(entries)[..i] == KvCmds(entries);
      deletedKeys := RetainAbsent(deletedKeys, snapshotted);
    }

    /** Both loops of `merge`. The HashMap is drained in an arbitrary order: the contract holds for
        every order, and depends on the tombstones only as a set. */
    method Merge(delta: KVSnapshot)
      requires delta != this
      modifies this
      ensures View() == Merged(old(View()), delta.View())
    {
      var remaining := delta.snapshotted.Keys;
      while remaining != {}
        invariant remaining <= delta.snapshotted.Keys
        invariant snapshotted == old(snapshotted) + (delta.snapshotted - remaining)
        decreases remaining
      {
        var k :| k in remaining;
        snapshotted := snapshotted[k := delta.snapshotted[k]];
        remaining := remaining - {k};
      }
      var i := 0;
      while i < |delta.deletedKeys|
        invariant 0 <= i <= |delta.deletedKeys|
        invariant snapshotted == (old(snapshotted) + delta.snapshotted) - TombSet(delta.deletedKeys[..i])
      {
        snapshotted := snapshotted - {delta.deletedKeys[i]};
        i := i + 1;
      }
      assert delta.deletedKeys[..i] == delta.deletedKeys;
      deletedKeys := [];
    }
  }
}
