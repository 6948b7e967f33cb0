/** Before it gives a query back, the worker writes every modified page of every table to the block store. */
module FlushAll {
  import opened Common
  import opened BlockStore
  import opened StoreSafety
  import opened PlainStore
  import opened StoreRefinement
  import Memory
  import opened MemoryInvariant
  import opened MemoryRuns
  import opened Flush
  import opened WorkerModule
  import opened StorageModule

  /** The tables in the order of the worker's list; the first refusal ends the loop. */
  function PersistAll(cfg: Config, st: Memory.Setup, m: Mem, s: Store, order: seq<FileTag>): (r: (Mem, Store, Code))
    requires cfg.Valid() && cfg.blockSize == st.size && Memory.Shaped(st, m) && StoreOk(s)
    ensures Memory.Shaped(st, r.0) && StoreOk(r.1)
    decreases |order|
  {
    if order == [] then (m, s, Correct)
    else
      var (m', s', code) := Persist(cfg, st, m, s, order[0]);
      if code != Correct then (m', s', code) else PersistAll(cfg, st, m', s', order[1..])
  }

  predicate Modified(m: Mem, t: FileTag, k: nat) {
    Memory.Pid(t, k) in m.pages && m.pages[Memory.Pid(t, k)].modified
  }

  /** Block `k` of `t` after the listed tables are written back. */
  ghost predicate BackAt(st: Memory.Setup, m: Mem, a: Plain, a': Plain, order: seq<FileTag>, t: FileTag, k: nat)
    requires Memory.Shaped(st, m)
  {
    BlockAfter(st, m, a, a', t, k, t in order && Modified(m, t, k))
  }

  /** `a'` is `a` with the frame of each modified page of the listed tables as its block, and no other block changed. */
  ghost predicate WrittenBack(st: Memory.Setup, m: Mem, a: Plain, a': Plain, order: seq<FileTag>)
    requires Memory.Shaped(st, m)
  {
    && SameShape(a, a')
    && (forall t, k: nat :: t in a.tags && k < |a.tags[t].data| ==>
          BackAt(st, m, a, a', order, t, k))
    && (forall t, k: nat :: t in order && Modified(m, t, k) ==> t in a.tags && k < |a.tags[t].data|)
  }

  /** Only flags of the listed tables are cleared. */
  ghost predicate ClearedIn(m: Mem, m': Mem, order: seq<FileTag>) {
    && m'.pages.Keys == m.pages.Keys && m' == m.(pages := m'.pages)
    && forall p :: p in m.pages ==>
         m'.pages[p] == if p.owner in order then m.pages[p].(modified := false) else m.pages[p]
  }

  lemma ClearedNext(m: Mem, m1: Mem, m2: Mem, ft: FileTag, rest: seq<FileTag>)
    requires FlagsCleared(m, m1, ft, 0) && ClearedIn(m1, m2, rest)
    ensures ClearedIn(m, m2, [ft] + rest)
  {
  }

  lemma ModifiedNext(m: Mem, m1: Mem, ft: FileTag, t: FileTag, k: nat)
    requires FlagsCleared(m, m1, ft, 0)
    ensures Modified(m1, t, k) <==> t != ft && Modified(m, t, k)
    ensures Dirty(m, ft, 0, k) <==> Modified(m, ft, k)
  {
  }

  lemma WrittenNext(st: Memory.Setup, m: Mem, m1: Mem, a: Plain, a1: Plain, a2: Plain, ft: FileTag, rest: seq<FileTag>)
    requires Memory.Shaped(st, m) && Memory.Shaped(st, m1) && FlagsCleared(m, m1, ft, 0)
    requires Flushed(st, m, a, a1, ft, 0) && WrittenBack(st, m1, a1, a2, rest)
    ensures WrittenBack(st, m, a, a2, [ft] + rest)
  {
    forall t, k: nat | t in a.tags && k < |a.tags[t].data|
      ensures BackAt(st, m, a, a2, [ft] + rest, t, k)
    {
      WrittenAt(st, m, m1, a, a1, a2, ft, rest, t, k);
    }
    forall t, k: nat | t in [ft] + rest && Modified(m, t, k) ensures t in a.tags && k < |a.tags[t].data| {
      ModifiedNext(m, m1, ft, t, k);
    }
    hide BackAt, FlushedAt, Modified, Memory.Shaped;
  }

  lemma WrittenAt(st: Memory.Setup, m: Mem, m1: Mem, a: Plain, a1: Plain, a2: Plain, ft: FileTag, rest: seq<FileTag>, t: FileTag, k: nat)
    requires Memory.Shaped(st, m) && Memory.Shaped(st, m1) && FlagsCleared(m, m1, ft, 0)
    requires Flushed(st, m, a, a1, ft, 0) && WrittenBack(st, m1, a1, a2, rest)
    requires t in a.tags && k < |a.tags[t].data|
    ensures BackAt(st, m, a, a2, [ft] + rest, t, k)
  {
    ModifiedNext(m, m1, ft, t, k);
    assert FlushedAt(st, m, a, a1, ft, 0, t, k);
    assert BackAt(st, m1, a1, a2, rest, t, k);
    hide Memory.Shaped, Memory.FrameOf;
  }

  /**
   When writing everything back succeeds, every modified page of the listed
   tables is in its storage block, none of them stays modified, and every other
   logical block of the store is as it was.
   */
  lemma {:induction false} PersistAllWritesBack(cfg: Config, st: Memory.Setup, m: Mem, s: Store, order: seq<FileTag>)
    requires cfg.blockSize == st.size && Memory.Shaped(st, m) && Safe(cfg, s)
    requires PersistAll(cfg, st, m, s, order).2 == Correct
    ensures var (m', s', _) := PersistAll(cfg, st, m, s, order);
            && Safe(cfg, s')
            && WrittenBack(st, m, Abstract(s), Abstract(s'), order)
            && ClearedIn(m, m', order)
    decreases |order|
  {
    hide *;
    SafeOk(cfg, s);
    if order == [] {
      NothingListed(cfg, st, m, s);
    } else {
      PersistAllTurn(cfg, st, m, s, order);
      var (m1, s1, _) := Persist(cfg, st, m, s, order[0]);
      FlushWritesBack(cfg, st, m, s, order[0]);
      PersistAllWritesBack(cfg, st, m1, s1, order[1..]);
      var (m2, s2, _) := PersistAll(cfg, st, m1, s1, order[1..]);
      BackNext(st, m, m1, m2, Abstract(s), Abstract(s1), Abstract(s2), order);
    }
  }

  /** The first table, then the others. */
  lemma BackNext(st: Memory.Setup, m: Mem, m1: Mem, m2: Mem, a: Plain, a1: Plain, a2: Plain, order: seq<FileTag>)
    requires Memory.Shaped(st, m) && Memory.Shaped(st, m1) && order != []
    requires FlagsCleared(m, m1, order[0], 0) && ClearedIn(m1, m2, order[1..])
    requires Flushed(st, m, a, a1, order[0], 0) && WrittenBack(st, m1, a1, a2, order[1..])
    ensures WrittenBack(st, m, a, a2, order) && ClearedIn(m, m2, order)
  {
    hide *;
    ClearedNext(m, m1, m2, order[0], order[1..]);
    WrittenNext(st, m, m1, a, a1, a2, order[0], order[1..]);
    assert order == [order[0]] + order[1..];
  }

  lemma NothingListed(cfg: Config, st: Memory.Setup, m: Mem, s: Store)
    requires cfg.Valid() && cfg.blockSize == st.size && Memory.Shaped(st, m) && StoreOk(s)
    ensures PersistAll(cfg, st, m, s, []) == (m, s, Correct)
    ensures WrittenBack(st, m, Abstract(s), Abstract(s), []) && ClearedIn(m, m, [])
  {
  }

  /** The loop, one turn unfolded. */
  lemma PersistAllTurn(cfg: Config, st: Memory.Setup, m: Mem, s: Store, order: seq<FileTag>)
    requires cfg.Valid() && cfg.blockSize == st.size && Memory.Shaped(st, m) && StoreOk(s) && order != []
    ensures var (m', s', code) := Persist(cfg, st, m, s, order[0]);
            && Memory.Shaped(st, m') && StoreOk(s')
            && PersistAll(cfg, st, m, s, order)
               == if code != Correct then (m', s', code) else PersistAll(cfg, st, m', s', order[1..])
  {
    hide Persist, Memory.Shaped, StoreOk;
  }

  /** The worker's list of tables: every table, and nothing else. */
  ghost predicate ListsTables(m: Mem, order: seq<FileTag>) {
    forall ft :: ft in order <==> ft in m.lengths
  }

  /** Block `k` of `t` after every table is written back. */
  ghost predicate SavedAt(st: Memory.Setup, m: Mem, a: Plain, a': Plain, t: FileTag, k: nat)
    requires Memory.Shaped(st, m)
  {
    BlockAfter(st, m, a, a', t, k, Modified(m, t, k))
  }

  /** `a'` is `a` with the frame of every modified page as its block, and no other block changed. */
  ghost predicate AllWritten(st: Memory.Setup, m: Mem, a: Plain, a': Plain)
    requires Memory.Shaped(st, m)
  {
    && SameShape(a, a')
    && (forall t, k: nat :: t in a.tags && k < |a.tags[t].data| ==> SavedAt(st, m, a, a', t, k))
    && (forall t, k: nat :: Modified(m, t, k) ==> t in a.tags && k < |a.tags[t].data|)
  }

  /** Every flag is cleared, and nothing else changes. */
  ghost predicate AllClean(m: Mem, m': Mem) {
    && m'.pages.Keys == m.pages.Keys && m' == m.(pages := m'.pages)
    && forall p :: p in m.pages ==> m'.pages[p] == m.pages[p].(modified := false)
  }

  /**
   When writing everything back succeeds, every modified page in memory is in its
   storage block, no page stays modified, and every other logical block of the
   store is as it was.
   */
  lemma EverythingWrittenBack(cfg: Config, st: Memory.Setup, m: Mem, s: Store, order: seq<FileTag>)
    requires cfg.blockSize == st.size && Memory.Shaped(st, m) && Safe(cfg, s) && ListsTables(m, order)
    requires PersistAll(cfg, st, m, s, order).2 == Correct
    ensures var (m', s', _) := PersistAll(cfg, st, m, s, order);
            && Safe(cfg, s')
            && AllWritten(st, m, Abstract(s), Abstract(s'))
            && AllClean(m, m')
  {
    PersistAllWritesBack(cfg, st, m, s, order);
    var (m', s', _) := PersistAll(cfg, st, m, s, order);
    hide *;
    NoneLeftOut(st, m, Abstract(s), Abstract(s'), order);
    NoneLeftDirty(st, m, m', order);
  }

  lemma NoneLeftOut(st: Memory.Setup, m: Mem, a: Plain, a': Plain, order: seq<FileTag>)
    requires Memory.Shaped(st, m) && ListsTables(m, order) && WrittenBack(st, m, a, a', order)
    ensures AllWritten(st, m, a, a')
  {
    forall t, k: nat | Modified(m, t, k) ensures t in order {
      assert Memory.Pid(t, k) in m.pages;
    }
    forall t, k: nat | t in a.tags && k < |a.tags[t].data| ensures SavedAt(st, m, a, a', t, k) {
      assert BackAt(st, m, a, a', order, t, k);
    }
    hide Memory.Shaped, Memory.FrameOf, Modified, ListsTables;
  }

  lemma NoneLeftDirty(st: Memory.Setup, m: Mem, m': Mem, order: seq<FileTag>)
    requires Memory.Shaped(st, m) && ListsTables(m, order) && ClearedIn(m, m', order)
    ensures AllClean(m, m')
  {
  }

  /** Writing everything back is, for the memory, a run of FLUSH requests: the frame table is kept. */
  lemma {:induction false} PersistAllIsRun(cfg: Config, st: Memory.Setup, m: Mem, s: Store, order: seq<FileTag>) returns (rs: seq<Request>)
    requires cfg.Valid() && cfg.blockSize == st.size && StoreOk(s) && Inv(st, m)
    ensures Memory.Shaped(st, m) && Reaches(st, m, rs, PersistAll(cfg, st, m, s, order).0)
    decreases |order|
  {
    hide Inv, Persist, StoreOk, Serve;
    InvariantIsShaped(st, m);
    if order == [] {
      rs := [];
    } else {
      var upto := PersistIsRequest(cfg, st, m, s, order[0]);
      var (m', s', code) := Persist(cfg, st, m, s, order[0]);
      var more := [];
      if code == Correct { more := PersistAllIsRun(cfg, st, m', s', order[1..]); }
      rs := [FlushOf(order[0], upto)] + more;
      assert rs[1..] == more;
    }
  }

  lemma InvariantIsShaped(st: Memory.Setup, m: Mem)
    requires Inv(st, m)
    ensures Memory.Shaped(st, m)
  {
  }

  /** Writing everything back fails only so: at the first table whose FLUSH fails, with its code, and the tables after it are left as they are. */
  lemma {:induction false} PersistAllRefused(cfg: Config, st: Memory.Setup, m: Mem, s: Store, order: seq<FileTag>) returns (i: nat)
    requires cfg.Valid() && cfg.blockSize == st.size && Memory.Shaped(st, m) && StoreOk(s)
    requires PersistAll(cfg, st, m, s, order).2 != Correct
    ensures i < |order|
    ensures var (m1, s1, before) := PersistAll(cfg, st, m, s, order[..i]);
            && before == Correct && Memory.Shaped(st, m1) && StoreOk(s1)
            && PersistAll(cfg, st, m, s, order) == Persist(cfg, st, m1, s1, order[i])
    decreases |order|
  {
    hide *;
    if order == [] {
      PersistNone(cfg, st, m, s);
      assert false;
    } else {
      PersistAllTurn(cfg, st, m, s, order);
      var (m1, s1, code) := Persist(cfg, st, m, s, order[0]);
      if code != Correct {
        i := 0;
        assert order[..0] == [];
        PersistNone(cfg, st, m, s);
      } else {
        var j := PersistAllRefused(cfg, st, m1, s1, order[1..]);
        i := j + 1;
        PersistAllTurn(cfg, st, m, s, order[..i]);
        assert order[..i][0] == order[0] && order[..i][1..] == order[1..][..j] && order[1..][j] == order[i];
      }
    }
  }

  lemma PersistNone(cfg: Config, st: Memory.Setup, m: Mem, s: Store)
    requires cfg.Valid() && cfg.blockSize == st.size && Memory.Shaped(st, m) && StoreOk(s)
    ensures PersistAll(cfg, st, m, s, []) == (m, s, Correct)
  {
  }

  /** The loop over the tables. */
  method PersistTables(worker: Worker, disk: Storage, order: seq<FileTag>) returns (code: Code)
    requires disk.Valid() && disk.cfg.blockSize == worker.st.size && Memory.Shaped(worker.st, worker.State())
    requires ListsTables(worker.State(), order)
    modifies worker`pages, disk, disk.bitmap
    ensures disk.Valid()
    ensures (worker.State(), disk.View(), code)
            == PersistAll(disk.cfg, worker.st, old(worker.State()), old(disk.View()), order)
  {
    code := Correct;
    var i := 0;
    ghost var whole := PersistAll(disk.cfg, worker.st, worker.State(), disk.View(), order);
    assert order[0..] == order;
    hide Persist, Memory.Shaped, StoreOk;
    while i < |order|
      invariant 0 <= i <= |order| && disk.Valid() && disk.bitmap == old(disk.bitmap) && Memory.Shaped(worker.st, worker.State())
      invariant PersistAll(disk.cfg, worker.st, worker.State(), disk.View(), order[i..]) == whole
    {
      assert order[i..][0] == order[i] && order[i..][1..] == order[i + 1..];
      code := PersistTag(worker, disk, order[i]);
      if code != Correct { return; }
      i := i + 1;
    }
    code := Correct;
  }
}
