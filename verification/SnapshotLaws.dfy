/** When folding snapshots agrees with replaying the log, exactly. */
module SnapshotLaws {
  import opened KV
  import opened Snapshots
  import opened Seqs

  /** The writes a batch makes to one key, in order: true for a Put, false for a Delete. Gets leave no letter. */
  function WriteWord(cmds: seq<KVCommand>, k: string): seq<bool> {
    if |cmds| == 0 then []
    else
      var c := cmds[|cmds| - 1];
      WriteWord(cmds[..|cmds| - 1], k) + (if Touches(c, k) then [c.Put?] else [])
  }

  /** The word lies in (Put+ Delete)+ : it starts with a Put, ends with a Delete, and each Delete follows a Put. */
  predicate PutDeleteBlocks(w: seq<bool>) {
    && |w| > 0 && w[0] && !w[|w| - 1]
    && forall i :: 0 < i < |w| && !w[i] ==> w[i - 1]
  }

  /** The batch writes `k`, ends with it deleted, and leaves no tombstone behind. */
  predicate Masks(batch: seq<KVCommand>, k: string) {
    PutDeleteBlocks(WriteWord(batch, k))
  }

  /** Some Delete in the word met an absent key: a leading Delete, or a Delete right after a Delete. */
  predicate DeletesAbsent(w: seq<bool>) {
    exists i :: 0 <= i < |w| && !w[i] && (i == 0 || !w[i - 1])
  }

  // ---------------------------------------------------------------- what `create` computes

  lemma {:induction false} WordDecidesReplay(db: Store, cmds: seq<KVCommand>, k: string)
    ensures var w := WriteWord(cmds, k);
      Lookup(Replay(db, cmds), k) ==
        if |w| == 0 then Lookup(db, k) else if w[|w| - 1] then Lookup(Replay(map[], cmds), k) else None
    ensures var w := WriteWord(cmds, k); |w| > 0 && w[|w| - 1] ==> k in Replay(map[], cmds)
  {
    if |cmds| > 0 {
      WordDecidesReplay(db, cmds[..|cmds| - 1], k);
    }
  }

  lemma {:induction false} AbsorbTracksReplay(cmds: seq<KVCommand>, k: string)
    ensures AbsorbAll(cmds).live == Replay(map[], cmds)
    ensures k in AbsorbAll(cmds).tombs <==> DeletesAbsent(WriteWord(cmds, k))
  {
    if |cmds| > 0 {
      var init, c := cmds[..|cmds| - 1], cmds[|cmds| - 1];
      AbsorbTracksReplay(init, k);
      var w, w' := WriteWord(init, k), WriteWord(cmds, k);
      WordDecidesReplay(map[], init, k);
      assert forall i :: 0 <= i < |w| ==> w'[i] == w[i];
      if c == Delete(k) {
        assert w' == w + [false];
        if k !in Replay(map[], init) {
          assert !w'[|w|] && (|w| == 0 || !w'[|w| - 1]);
        }
      }
    }
  }

  lemma {:induction false} RetainKeepsAbsent(tombs: seq<string>, live: Store, k: string)
    ensures k in RetainAbsent(tombs, live) <==> k in tombs && k !in live
  {
    if |tombs| > 0 {
      RetainKeepsAbsent(tombs[..|tombs| - 1], live, k);
      assert tombs == tombs[..|tombs| - 1] + [tombs[|tombs| - 1]];
    }
  }

  /** `create` is right about live keys; it keeps a tombstone exactly for the keys that end absent
      and were once deleted while absent, so live keys and tombstones never overlap. */
  lemma CreateCorrect(cmds: seq<KVCommand>)
    ensures SnapshotOf(cmds).live == Replay(map[], cmds)
    ensures forall k :: k in SnapshotOf(cmds).tombs <==>
      k !in Replay(map[], cmds) && DeletesAbsent(WriteWord(cmds, k))
    ensures SnapshotOf(cmds).live.Keys !! TombSet(SnapshotOf(cmds).tombs)
  {
    AbsorbTracksReplay(cmds, "");
    forall k
      ensures k in SnapshotOf(cmds).tombs <==> k !in Replay(map[], cmds) && DeletesAbsent(WriteWord(cmds, k))
    {
      AbsorbTracksReplay(cmds, k);
      RetainKeepsAbsent(AbsorbAll(cmds).tombs, AbsorbAll(cmds).live, k);
    }
  }

  lemma BlocksNeverDeleteAbsent(w: seq<bool>)
    ensures PutDeleteBlocks(w) <==> |w| > 0 && !w[|w| - 1] && !DeletesAbsent(w)
  {
    if |w| > 0 && !w[0] {
      assert DeletesAbsent(w);
    }
  }

  /** The pattern (Put+ Delete)+ is exactly how a written key can end up neither live nor a tombstone. */
  lemma MaskedLeavesNoTrace(cmds: seq<KVCommand>, k: string)
    ensures Masks(cmds, k) <==>
      WriteWord(cmds, k) != [] && k !in SnapshotOf(cmds).live && k !in SnapshotOf(cmds).tombs
  {
    hide PutDeleteBlocks, DeletesAbsent, SnapshotOf, Replay, WriteWord;
    CreateCorrect(cmds);
    WordDecidesReplay(map[], cmds, k);
    BlocksNeverDeleteAbsent(WriteWord(cmds, k));
  }

  // ---------------------------------------------------------------- merge against replay

  /** The value merge leaves at one key, next to the value replay leaves there. */
  lemma MergeAtKey(base: Snapshot, batch: seq<KVCommand>, k: string)
    ensures Lookup(Merged(base, SnapshotOf(batch)).live, k) ==
      if Masks(batch, k) then Lookup(base.live, k) else Lookup(Replay(base.live, batch), k)
    ensures Masks(batch, k) ==> Lookup(Replay(base.live, batch), k) == None
  {
    CreateCorrect(batch);
    MaskedLeavesNoTrace(batch, k);
    WordDecidesReplay(base.live, batch, k);
    WordDecidesReplay(map[], batch, k);
    if k in Merged(base, SnapshotOf(batch)).live { }
    if WriteWord(batch, k) == [] {
      assert !DeletesAbsent(WriteWord(batch, k));
    }
  }

  lemma SameLookups(m: Store, n: Store)
    ensures m == n <==> forall k :: Lookup(m, k) == Lookup(n, k)
  {
    if forall k :: Lookup(m, k) == Lookup(n, k) {
      forall k
        ensures (k in m <==> k in n) && (k in m ==> m[k] == n[k])
      {
        assert Lookup(m, k) == Lookup(n, k);
      }
    }
  }

  /** Merging a batch's snapshot into any base gives the replayed store exactly when no key
      live in the base is masked by the batch. */
  lemma MergeIsReplay(base: Snapshot, batch: seq<KVCommand>)
    ensures Merged(base, SnapshotOf(batch)).live == Replay(base.live, batch) <==>
      forall k :: k in base.live ==> !Masks(batch, k)
  {
    forall k
      ensures Lookup(Merged(base, SnapshotOf(batch)).live, k) == Lookup(Replay(base.live, batch), k) <==>
        !(k in base.live && Masks(batch, k))
    {
      MergeAtKey(base, batch, k);
    }
    SameLookups(Merged(base, SnapshotOf(batch)).live, Replay(base.live, batch));
  }

  /** The law the snapshot trait suggests, for live keys alone and for whole snapshots. */
  lemma MergeOfCreates(a: seq<KVCommand>, b: seq<KVCommand>)
    ensures var m := Merged(SnapshotOf(a), SnapshotOf(b));
      var unmasked := forall k :: k in Replay(map[], a) ==> !Masks(b, k);
      && (m.live == Replay(map[], a + b) <==> unmasked)
      && (m == SnapshotOf(a + b) <==>
            unmasked && forall k :: DeletesAbsent(WriteWord(a + b, k)) ==> k in Replay(map[], a + b))
  {
    CreateCorrect(a);
    CreateCorrect(a + b);
    ReplayConcat(map[], a, b);
    MergeIsReplay(SnapshotOf(a), b);
    var t := SnapshotOf(a + b).tombs;
    if t != [] {
      assert t[0] in t;
    }
  }

  /** The unconditional law fails: a key put by the first batch survives a put and a delete in the second. */
  lemma MergeCanResurrect()
    ensures var a, b := [Put("k", "1")], [Put("k", "2"), Delete("k")];
      && Lookup(Merged(SnapshotOf(a), SnapshotOf(b)).live, "k") == Some("1")
      && "k" !in Replay(map[], a + b)
  {
    var a, b := [Put("k", "1")], [Put("k", "2"), Delete("k")];
    assert b[..1] == [Put("k", "2")] && b[..1][..0] == [] && a[..0] == [];
    assert Replay(map[], a) == map["k" := "1"];
    assert WriteWord(b, "k") == [true, false];
    CreateCorrect(a);
    MergeAtKey(SnapshotOf(a), b, "k");
    ReplayConcat(map[], a, b);
  }

  // ---------------------------------------------------------------- incremental snapshotting

  /** The snapshot after taking one batch at a time. */
  function MergeAll(batches: seq<seq<KVCommand>>): Snapshot {
    if |batches| == 0 then Snapshot(map[], [])
    else Merged(MergeAll(batches[..|batches| - 1]), SnapshotOf(batches[|batches| - 1]))
  }

  /** Merging any of these batches leaves the key as it finds it. */
  predicate AllPass(batches: seq<seq<KVCommand>>, k: string) {
    forall j :: 0 <= j < |batches| ==> WriteWord(batches[j], k) == [] || Masks(batches[j], k)
  }

  /** The batch's last write to the key is a Put. */
  predicate Sets(batch: seq<KVCommand>, k: string) {
    var w := WriteWord(batch, k);
    |w| > 0 && w[|w| - 1]
  }

  /** Batch `i` sets the key, and no later batch changes what the snapshot holds for it. */
  predicate HeldSince(batches: seq<seq<KVCommand>>, k: string, i: int) {
    0 <= i < |batches| && Sets(batches[i], k) && AllPass(batches[i + 1..], k)
  }

  ghost predicate Held(batches: seq<seq<KVCommand>>, k: string) {
    exists i :: HeldSince(batches, k, i)
  }

  /** Batch `i` sets the key, batch `j` after it masks the key, and no batch after `i` sets the snapshot right. */
  predicate Resurrects(batches: seq<seq<KVCommand>>, k: string, i: int, j: int) {
    HeldSince(batches, k, i) && i < j < |batches| && Masks(batches[j], k)
  }

  ghost predicate Resurrected(batches: seq<seq<KVCommand>>, k: string) {
    exists i, j :: Resurrects(batches, k, i, j)
  }

  lemma AllPassStep(batches: seq<seq<KVCommand>>, last: seq<KVCommand>, k: string)
    ensures AllPass(batches + [last], k) <==> AllPass(batches, k) && AllPass([last], k)
  {
    var all := batches + [last];
    assert forall j :: 0 <= j < |batches| ==> all[j] == batches[j];
    assert all[|batches|] == last == [last][0];
  }

  lemma HeldSinceStep(batches: seq<seq<KVCommand>>, last: seq<KVCommand>, k: string, i: int)
    ensures 0 <= i < |batches| ==>
      (HeldSince(batches + [last], k, i) <==> AllPass([last], k) && HeldSince(batches, k, i))
    ensures i == |batches| ==> (HeldSince(batches + [last], k, i) <==> Sets(last, k))
  {
    var all := batches + [last];
    if 0 <= i < |batches| {
      assert all[i] == batches[i] && all[i + 1..] == batches[i + 1..] + [last];
      AllPassStep(batches[i + 1..], last, k);
    } else if i == |batches| {
      assert all[i] == last && all[i + 1..] == [];
    }
  }

  lemma HeldStep(batches: seq<seq<KVCommand>>, last: seq<KVCommand>, k: string)
    ensures Held(batches + [last], k) <==> Sets(last, k) || (AllPass([last], k) && Held(batches, k))
  {
    hide AllPass, Sets, HeldSince;
    var all := batches + [last];
    HeldSinceStep(batches, last, k, |batches|);
    if AllPass([last], k) && Held(batches, k) {
      var i :| HeldSince(batches, k, i);
      HeldSinceInRange(batches, k, i);
      HeldSinceStep(batches, last, k, i);
    }
    if Held(all, k) {
      var i :| HeldSince(all, k, i);
      HeldSinceInRange(all, k, i);
      HeldSinceStep(batches, last, k, i);
    }
  }

  lemma HeldSinceInRange(batches: seq<seq<KVCommand>>, k: string, i: int)
    requires HeldSince(batches, k, i)
    ensures 0 <= i < |batches|
  {
  }

  lemma ResurrectedStep(batches: seq<seq<KVCommand>>, last: seq<KVCommand>, k: string)
    ensures Resurrected(batches + [last], k) <==>
      AllPass([last], k) && (Resurrected(batches, k) || (Masks(last, k) && Held(batches, k)))
  {
    hide AllPass, Sets, HeldSince, Masks;
    var n, all := |batches|, batches + [last];
    if Resurrected(all, k) {
      var i, j :| Resurrects(all, k, i, j);
      HeldSinceInRange(all, k, i);
      HeldSinceStep(batches, last, k, i);
      if j < n {
        assert Resurrects(batches, k, i, j);
      } else {
        assert HeldSince(batches, k, i);
      }
    }
    if AllPass([last], k) && Resurrected(batches, k) {
      var i, j :| Resurrects(batches, k, i, j);
      HeldSinceInRange(batches, k, i);
      HeldSinceStep(batches, last, k, i);
      assert Resurrects(all, k, i, j);
    }
    if AllPass([last], k) && Masks(last, k) && Held(batches, k) {
      var i :| HeldSince(batches, k, i);
      HeldSinceInRange(batches, k, i);
      HeldSinceStep(batches, last, k, i);
      assert Resurrects(all, k, i, n);
    }
  }

  lemma MaskingPasses(batch: seq<KVCommand>, k: string)
    ensures AllPass([batch], k) <==> WriteWord(batch, k) == [] || Masks(batch, k)
    ensures Masks(batch, k) ==> !Sets(batch, k) && WriteWord(batch, k) != []
  {
    assert [batch][0] == batch;
  }

  lemma OneMoreBatch(init: seq<seq<KVCommand>>, last: seq<KVCommand>)
    ensures MergeAll(init + [last]) == Merged(MergeAll(init), SnapshotOf(last))
    ensures Replay(map[], Flatten(init + [last])) == Replay(Replay(map[], Flatten(init)), last)
  {
    hide Merged, SnapshotOf, Replay;
    assert (init + [last])[..|init|] == init;
    ReplayConcat(map[], Flatten(init), last);
  }

  /** What one more batch does at one key, to the snapshot and to the replayed log. */
  lemma BatchAtKey(snap: Snapshot, log: Store, batch: seq<KVCommand>, k: string)
    ensures var atSnap, atLog := Lookup(Merged(snap, SnapshotOf(batch)).live, k), Lookup(Replay(log, batch), k);
      if Sets(batch, k) then atSnap == atLog != None
      else if AllPass([batch], k) then
        atSnap == Lookup(snap.live, k) && atLog == if Masks(batch, k) then None else Lookup(log, k)
      else atSnap == atLog == None && !Masks(batch, k)
  {
    hide AllPass, PutDeleteBlocks, Merged, SnapshotOf, Replay, WriteWord;
    MaskingPasses(batch, k);
    MergeAtKey(snap, batch, k);
    WordDecidesReplay(snap.live, batch, k);
    WordDecidesReplay(log, batch, k);
  }

  lemma {:induction false} MergeAllAtKey(batches: seq<seq<KVCommand>>, k: string)
    ensures var snap, log := Lookup(MergeAll(batches).live, k), Lookup(Replay(map[], Flatten(batches)), k);
      && (snap != None <==> Held(batches, k))
      && (snap == log <==> !Resurrected(batches, k))
      && (snap == log || (log == None && snap != None))
  {
    if |batches| > 0 {
      hide *;
      var n := |batches| - 1;
      var init, last := batches[..n], batches[n];
      MergeAllAtKey(init, k);
      assert batches == init + [last];
      HeldStep(init, last, k);
      ResurrectedStep(init, last, k);
      OneMoreBatch(init, last);
      BatchAtKey(MergeAll(init), Replay(map[], Flatten(init)), last, k);
    } else {
      NothingHeldAtFirst(k);
    }
  }

  lemma NothingHeldAtFirst(k: string)
    ensures !Held([], k) && !Resurrected([], k)
  {
  }

  /** For every split of a log into batches, folding the snapshots gives the replayed store exactly when no
      batch resurrects a key, which the batches' writes alone decide. The fold never loses a key: it can
      only keep one too many. */
  lemma IncrementalIsReplay(batches: seq<seq<KVCommand>>)
    ensures var snap, log := MergeAll(batches).live, Replay(map[], Flatten(batches));
      && (snap == log <==> forall k :: !Resurrected(batches, k))
      && (forall k :: k in log ==> k in snap && snap[k] == log[k])
  {
    var snap, log := MergeAll(batches).live, Replay(map[], Flatten(batches));
    forall k
      ensures Lookup(snap, k) == Lookup(log, k) <==> !Resurrected(batches, k)
      ensures k in log ==> k in snap && snap[k] == log[k]
    {
      MergeAllAtKey(batches, k);
    }
    SameLookups(snap, log);
  }

  /** Taking a snapshot after every single command is always right. */
  lemma OneCommandBatchesAreSafe(batches: seq<seq<KVCommand>>)
    requires forall i :: 0 <= i < |batches| ==> |batches[i]| <= 1
    ensures MergeAll(batches).live == Replay(map[], Flatten(batches))
  {
    hide WriteWord, MergeAll, Replay, Flatten, AllPass, PutDeleteBlocks;
    IncrementalIsReplay(batches);
    forall k, i, j
      ensures !Resurrects(batches, k, i, j)
    {
      if 0 <= j < |batches| {
        OneCommandNeverMasks(batches[j], k);
      }
    }
  }

  lemma OneCommandNeverMasks(batch: seq<KVCommand>, k: string)
    requires |batch| <= 1
    ensures !Masks(batch, k)
  {
    if |batch| == 1 {
      assert batch[..0] == [];
    }
    assert |WriteWord(batch, k)| <= 1;
  }

  // ---------------------------------------------------------------- merge on its own

  /** Live keys and tombstones do not overlap: what `create` and `merge` both guarantee of their result. */
  predicate Disjoint(s: Snapshot) {
    s.live.Keys !! TombSet(s.tombs)
  }

  /** The two loops of `merge`, run in the other order. */
  function MergedRemoveFirst(base: Snapshot, delta: Snapshot): Snapshot {
    Snapshot((base.live - TombSet(delta.tombs)) + delta.live, [])
  }

  /** The order of the two loops is invisible exactly when the delta is disjoint, as every created one is. */
  lemma LoopOrderIsInvisible(base: Snapshot, delta: Snapshot)
    ensures Merged(base, delta) == MergedRemoveFirst(base, delta) <==> Disjoint(delta)
    ensures Disjoint(Merged(base, delta))
  {
    if !Disjoint(delta) {
      var k :| k in delta.live.Keys && k in TombSet(delta.tombs);
      assert k in MergedRemoveFirst(base, delta).live && k !in Merged(base, delta).live;
    }
  }

  /** Merge is associative exactly when no live key of the first snapshot is tombstoned by the second or
      the third and absent from their merge, because a merge forgets its own tombstones. Only the second
      need be disjoint, as all created and merged snapshots are. */
  lemma MergeAssociativity(a: Snapshot, b: Snapshot, c: Snapshot)
    requires Disjoint(b)
    ensures Merged(Merged(a, b), c) == Merged(a, Merged(b, c)) <==>
      forall k :: k in a.live && (k in b.tombs || k in c.tombs) ==> k in Merged(b, c).live
  {
    var left, right := Merged(Merged(a, b), c), Merged(a, Merged(b, c));
    forall k
      ensures Lookup(left.live, k) == Lookup(right.live, k) <==>
        (k in a.live && (k in b.tombs || k in c.tombs) ==> k in Merged(b, c).live)
    {
      assert k in TombSet(b.tombs) <==> k in b.tombs;
      assert k in TombSet(c.tombs) <==> k in c.tombs;
      assert k in b.live.Keys && k in b.tombs ==> false;
      assert TombSet([]) == {};
    }
    SameLookups(left.live, right.live);
  }

  /** It fails on snapshots the code creates: a put, a delete, and nothing at all. */
  lemma AssociativityFails(k: string, v: string)
    ensures var a, b, c := SnapshotOf([Put(k, v)]), SnapshotOf([Delete(k)]), SnapshotOf([]);
      && Disjoint(b) && k !in Merged(Merged(a, b), c).live && k in Merged(a, Merged(b, c)).live
  {
    var put, delete := [Put(k, v)], [Delete(k)];
    assert put[..0] == [] && delete[..0] == [];
    CreateCorrect(put);
    CreateCorrect(delete);
    assert Replay(map[], put) == map[k := v] && Replay(map[], delete) == map[];
    assert WriteWord(delete, k) == [false] && !WriteWord(delete, k)[0];
    assert TombSet([]) == {};
  }
}
