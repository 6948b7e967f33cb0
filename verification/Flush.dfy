/** FLUSH: the worker writes the modified pages of a file:tag back to the block store. */
module Flush {
  import opened Common
  import opened BlockStore
  import opened StoreLinks
  import opened StoreSafety
  import opened PlainStore
  import opened StoreRefinement
  import Memory
  import opened MemoryInvariant
  import opened MemoryAccess
  import opened FlatMemory
  import opened MemoryRuns
  import opened WorkerModule
  import opened StorageModule

  type Mem = Memory.Memory

  function Cleaned(m: Mem, p: Memory.Pid): Mem
    requires p in m.pages
  {
    m.(pages := m.pages[p := m.pages[p].(modified := false)])
  }

  /** One page: sent to the storage when modified, and marked clean whatever the storage says. */
  function FlushPage(cfg: Config, st: Memory.Setup, m: Mem, s: Store, p: Memory.Pid): (r: (Mem, Store, Code))
    requires cfg.Valid() && cfg.blockSize == st.size && Memory.Shaped(st, m) && StoreOk(s) && p in m.pages
    ensures Memory.Shaped(st, r.0) && StoreOk(r.1) && r.0.lengths == m.lengths
  {
    if !m.pages[p].modified then (m, s, Correct)
    else
      var (s', reply) := Step(cfg, s, WriteBlock(p.owner, p.num, Memory.FrameOf(st, m.bytes, m.pages[p].frame)));
      (Cleaned(m, p), s', reply.code)
  }

  /** Pages `i` and on of the table; a refusal ends the loop. */
  function FlushFrom(cfg: Config, st: Memory.Setup, m: Mem, s: Store, ft: FileTag, i: nat): (r: (Mem, Store, Code))
    requires cfg.Valid() && cfg.blockSize == st.size && Memory.Shaped(st, m) && StoreOk(s)
    requires ft in m.lengths && i <= m.lengths[ft]
    ensures Memory.Shaped(st, r.0) && StoreOk(r.1)
    decreases m.lengths[ft] - i
  {
    if i == m.lengths[ft] then (m, s, Correct)
    else
      var (m', s', code) := FlushPage(cfg, st, m, s, Memory.Pid(ft, i));
      if code != Correct then (m', s', code) else FlushFrom(cfg, st, m', s', ft, i + 1)
  }

  /** FLUSH of a file:tag the worker has no table for is a success that does nothing. */
  function Persist(cfg: Config, st: Memory.Setup, m: Mem, s: Store, ft: FileTag): (r: (Mem, Store, Code))
    requires cfg.Valid() && cfg.blockSize == st.size && Memory.Shaped(st, m) && StoreOk(s)
    ensures Memory.Shaped(st, r.0) && StoreOk(r.1)
  {
    if ft !in m.lengths then (m, s, Correct) else FlushFrom(cfg, st, m, s, ft, 0)
  }

  /** Page `k` of `ft`, from `i` on, was modified. */
  predicate Dirty(m: Mem, ft: FileTag, i: nat, k: nat) {
    i <= k && Memory.Pid(ft, k) in m.pages && m.pages[Memory.Pid(ft, k)].modified
  }

  /** Only contents differ. */
  ghost predicate SameShape(a: Plain, a': Plain) {
    && a'.files == a.files && a'.tags.Keys == a.tags.Keys
    && forall t :: t in a.tags ==>
         && a'.tags[t].size == a.tags[t].size && a'.tags[t].committed == a.tags[t].committed
         && |a'.tags[t].data| == |a.tags[t].data|
  }

  lemma SameShapeOn(a: Plain, a1: Plain, a2: Plain, ft: FileTag, i: nat, block: Block)
    requires ft in a.tags && i < |a.tags[ft].data|
    requires a1 == a.(tags := a.tags[ft := a.tags[ft].(data := a.tags[ft].data[i := block])]) && SameShape(a1, a2)
    ensures SameShape(a, a2)
  {
    assert a1.tags.Keys == a.tags.Keys;
  }

  /** Block `k` of `t` holds the frame of its page when `written`, and else what it held. */
  ghost predicate BlockAfter(st: Memory.Setup, m: Mem, a: Plain, a': Plain, t: FileTag, k: nat, written: bool)
    requires Memory.Shaped(st, m) && (written ==> Memory.Pid(t, k) in m.pages)
  {
    && t in a.tags && k < |a.tags[t].data| && t in a'.tags && k < |a'.tags[t].data|
    && a'.tags[t].data[k] ==
         if written then Memory.FrameOf(st, m.bytes, m.pages[Memory.Pid(t, k)].frame) else a.tags[t].data[k]
  }

  /** Block `k` of `t` after the flush of `ft`. */
  ghost predicate FlushedAt(st: Memory.Setup, m: Mem, a: Plain, a': Plain, ft: FileTag, i: nat, t: FileTag, k: nat)
    requires Memory.Shaped(st, m)
  {
    BlockAfter(st, m, a, a', t, k, t == ft && Dirty(m, ft, i, k))
  }

  /** `a'` is `a` with each dirty page's frame as its block, and no other block changed. */
  ghost predicate Flushed(st: Memory.Setup, m: Mem, a: Plain, a': Plain, ft: FileTag, i: nat)
    requires Memory.Shaped(st, m)
  {
    && SameShape(a, a')
    && (forall t, k: nat :: t in a.tags && k < |a.tags[t].data| ==>
          FlushedAt(st, m, a, a', ft, i, t, k))
    && (forall k: nat :: Dirty(m, ft, i, k) ==> ft in a.tags && k < |a.tags[ft].data|)
  }

  /** Only flags of `ft`, from page `i` on, are cleared. */
  ghost predicate FlagsCleared(m: Mem, m': Mem, ft: FileTag, i: nat) {
    && m'.pages.Keys == m.pages.Keys && m' == m.(pages := m'.pages)
    && forall p :: p in m.pages ==>
         m'.pages[p] == if p.owner == ft && i <= p.num then m.pages[p].(modified := false) else m.pages[p]
  }

  lemma OneFlushed(st: Memory.Setup, m: Mem, a: Plain, a1: Plain, a2: Plain, ft: FileTag, i: nat)
    requires Memory.Shaped(st, m) && Memory.Pid(ft, i) in m.pages && m.pages[Memory.Pid(ft, i)].modified
    requires ft in a.tags && i < |a.tags[ft].data|
    requires a1 == a.(tags := a.tags[ft := a.tags[ft].(data := a.tags[ft].data[i := Memory.FrameOf(st, m.bytes, m.pages[Memory.Pid(ft, i)].frame)])])
    requires Memory.Shaped(st, Cleaned(m, Memory.Pid(ft, i))) && Flushed(st, Cleaned(m, Memory.Pid(ft, i)), a1, a2, ft, i + 1)
    ensures Flushed(st, m, a, a2, ft, i)
  {
    forall t, k: nat | t in a.tags && k < |a.tags[t].data|
      ensures FlushedAt(st, m, a, a2, ft, i, t, k)
    {
      OneFlushedAt(st, m, a, a1, a2, ft, i, t, k);
    }
    forall k: nat | Dirty(m, ft, i, k) ensures k < |a.tags[ft].data| {
      DirtyNext(m, ft, i, k);
    }
    SameShapeOn(a, a1, a2, ft, i, Memory.FrameOf(st, m.bytes, m.pages[Memory.Pid(ft, i)].frame));
    hide Memory.Shaped, Memory.FrameOf, Cleaned, SameShape, FlushedAt;
  }

  lemma OneFlushedAt(st: Memory.Setup, m: Mem, a: Plain, a1: Plain, a2: Plain, ft: FileTag, i: nat, t: FileTag, k: nat)
    requires Memory.Shaped(st, m) && Memory.Pid(ft, i) in m.pages && m.pages[Memory.Pid(ft, i)].modified
    requires ft in a.tags && i < |a.tags[ft].data|
    requires a1 == a.(tags := a.tags[ft := a.tags[ft].(data := a.tags[ft].data[i := Memory.FrameOf(st, m.bytes, m.pages[Memory.Pid(ft, i)].frame)])])
    requires Memory.Shaped(st, Cleaned(m, Memory.Pid(ft, i))) && Flushed(st, Cleaned(m, Memory.Pid(ft, i)), a1, a2, ft, i + 1)
    requires t in a.tags && k < |a.tags[t].data|
    ensures FlushedAt(st, m, a, a2, ft, i, t, k)
  {
    DirtyNext(m, ft, i, k);
    assert t in a1.tags && k < |a1.tags[t].data|;
    assert FlushedAt(st, Cleaned(m, Memory.Pid(ft, i)), a1, a2, ft, i + 1, t, k);
    hide Memory.Shaped, Memory.FrameOf, Cleaned;
  }

  /** Once a page is clean, the other pages are dirty as before, under the same frames. */
  lemma DirtyNext(m: Mem, ft: FileTag, i: nat, k: nat)
    requires Memory.Pid(ft, i) in m.pages && m.pages[Memory.Pid(ft, i)].modified
    ensures var m' := Cleaned(m, Memory.Pid(ft, i));
            && m'.bytes == m.bytes
            && (Dirty(m, ft, i, k) <==> k == i || Dirty(m', ft, i + 1, k))
            && (k != i && Dirty(m, ft, i, k) ==> m'.pages[Memory.Pid(ft, k)].frame == m.pages[Memory.Pid(ft, k)].frame)
  {
  }

  lemma OneCleared(m: Mem, m': Mem, ft: FileTag, i: nat)
    requires Memory.Pid(ft, i) in m.pages && FlagsCleared(Cleaned(m, Memory.Pid(ft, i)), m', ft, i + 1)
    ensures FlagsCleared(m, m', ft, i)
  {
    forall p | p in m.pages && p.owner == ft && p.num == i ensures p == Memory.Pid(ft, i) {
    }
  }

  lemma NothingLeft(st: Memory.Setup, m: Mem, a: Plain, ft: FileTag)
    requires Memory.Shaped(st, m) && ft in m.lengths
    ensures Flushed(st, m, a, a, ft, m.lengths[ft]) && FlagsCleared(m, m, ft, m.lengths[ft])
  {
    forall k: nat ensures !Dirty(m, ft, m.lengths[ft], k) {
    }
  }

  /** The block write of one page succeeds: the plain store changes at that block only. */
  lemma PageWritten(cfg: Config, s: Store, ft: FileTag, n: nat, block: Block)
    requires Safe(cfg, s) && |block| == cfg.blockSize
    requires Step(cfg, s, WriteBlock(ft, n, block)).1.code == Correct
    ensures var s' := Step(cfg, s, WriteBlock(ft, n, block)).0; var a := Abstract(s);
            && Safe(cfg, s')
            && ft in a.tags && n < |a.tags[ft].data|
            && Abstract(s') == a.(tags := a.tags[ft := a.tags[ft].(data := a.tags[ft].data[n := block])])
  {
    StepRefines(cfg, s, WriteBlock(ft, n, block));
    assert block[..cfg.blockSize] == block;
  }

  lemma {:induction false} FlushFromCorrect(cfg: Config, st: Memory.Setup, m: Mem, s: Store, ft: FileTag, i: nat)
    requires cfg.blockSize == st.size && Memory.Shaped(st, m) && Safe(cfg, s)
    requires ft in m.lengths && i <= m.lengths[ft]
    requires FlushFrom(cfg, st, m, s, ft, i).2 == Correct
    ensures var (m', s', _) := FlushFrom(cfg, st, m, s, ft, i);
            && Safe(cfg, s') && Flushed(st, m, Abstract(s), Abstract(s'), ft, i) && FlagsCleared(m, m', ft, i)
    decreases m.lengths[ft] - i
  {
    hide Safe;
    hide Abstract;
    hide Step;
    hide Flushed;
    hide FlagsCleared;
    hide Memory.FrameOf;
    SafeOk(cfg, s);
    var p := Memory.Pid(ft, i);
    if i == m.lengths[ft] {
      NothingLeft(st, m, Abstract(s), ft);
    } else {
      if !m.pages[p].modified {
        FlushFromCorrect(cfg, st, m, s, ft, i + 1);
        SkipClean(st, m, Abstract(s), Abstract(FlushFrom(cfg, st, m, s, ft, i).1), FlushFrom(cfg, st, m, s, ft, i).0, ft, i);
      } else {
        var block := Memory.FrameOf(st, m.bytes, m.pages[p].frame);
        var s1 := Step(cfg, s, WriteBlock(ft, i, block)).0;
        PageWritten(cfg, s, ft, i, block);
        SafeOk(cfg, s1);
        FlushFromCorrect(cfg, st, Cleaned(m, p), s1, ft, i + 1);
        OneFlushed(st, m, Abstract(s), Abstract(s1), Abstract(FlushFrom(cfg, st, m, s, ft, i).1), ft, i);
        OneCleared(m, FlushFrom(cfg, st, m, s, ft, i).0, ft, i);
      }
    }
  }

  lemma SafeOk(cfg: Config, s: Store)
    requires Safe(cfg, s)
    ensures cfg.Valid() && StoreOk(s)
  {
  }

  lemma SkipClean(st: Memory.Setup, m: Mem, a: Plain, a': Plain, m': Mem, ft: FileTag, i: nat)
    requires Memory.Shaped(st, m) && Memory.Pid(ft, i) in m.pages && !m.pages[Memory.Pid(ft, i)].modified
    requires Flushed(st, m, a, a', ft, i + 1) && FlagsCleared(m, m', ft, i + 1)
    ensures Flushed(st, m, a, a', ft, i) && FlagsCleared(m, m', ft, i)
  {
    forall k: nat ensures Dirty(m, ft, i, k) == Dirty(m, ft, i + 1, k) {
      assert k == i ==> !Dirty(m, ft, i, k);
    }
    forall t, k: nat | t in a.tags && k < |a.tags[t].data| ensures FlushedAt(st, m, a, a', ft, i, t, k) {
      assert FlushedAt(st, m, a, a', ft, i + 1, t, k);
    }
    forall p | p in m.pages && p.owner == ft && p.num == i ensures p == Memory.Pid(ft, i) {
    }
  }

  /**
   A FLUSH that succeeds: the storage block of every page whose modified bit was
   set holds the page's frame, no page of the tag stays modified, and every other
   logical block of the store is as it was.
   */
  lemma FlushWritesBack(cfg: Config, st: Memory.Setup, m: Mem, s: Store, ft: FileTag)
    requires cfg.blockSize == st.size && Memory.Shaped(st, m) && Safe(cfg, s)
    requires Persist(cfg, st, m, s, ft).2 == Correct
    ensures var (m', s', _) := Persist(cfg, st, m, s, ft);
            && Safe(cfg, s')
            && Flushed(st, m, Abstract(s), Abstract(s'), ft, 0)
            && FlagsCleared(m, m', ft, 0)
  {
    if ft in m.lengths {
      FlushFromCorrect(cfg, st, m, s, ft, 0);
    } else {
      forall k: nat ensures !Dirty(m, ft, 0, k) {
      }
    }
  }

  // ------------------------------------------------------- what it does to memory

  lemma CleanNone(m: Mem, ft: FileTag, i: nat)
    ensures CleanPages(m, ft, i, i) == m
  {
  }

  lemma CleanOneMore(m: Mem, ft: FileTag, i: nat, upto: nat)
    requires Memory.Pid(ft, i) in m.pages && i < upto
    ensures CleanPages(Cleaned(m, Memory.Pid(ft, i)), ft, i + 1, upto) == CleanPages(m, ft, i, upto)
    ensures !m.pages[Memory.Pid(ft, i)].modified ==> CleanPages(m, ft, i + 1, upto) == CleanPages(m, ft, i, upto)
    ensures CleanPages(m, ft, i, i + 1) == Cleaned(m, Memory.Pid(ft, i))
  {
    forall p | p in m.pages && p.owner == ft && p.num == i ensures p == Memory.Pid(ft, i) {
    }
  }

  /** Whatever the storage answers, the pages up to some one are marked clean and nothing else of the memory changes. */
  lemma {:induction false} FlushFromCleans(cfg: Config, st: Memory.Setup, m: Mem, s: Store, ft: FileTag, i: nat) returns (upto: nat)
    requires cfg.Valid() && cfg.blockSize == st.size && Memory.Shaped(st, m) && StoreOk(s)
    requires ft in m.lengths && i <= m.lengths[ft]
    ensures i <= upto <= m.lengths[ft] && FlushFrom(cfg, st, m, s, ft, i).0 == CleanPages(m, ft, i, upto)
    ensures FlushFrom(cfg, st, m, s, ft, i).2 == Correct ==> upto == m.lengths[ft]
    decreases m.lengths[ft] - i
  {
    hide Memory.Shaped, StoreOk, CleanPages;
    if i == m.lengths[ft] {
      upto := i;
      FlushEnd(cfg, st, m, s, ft, i);
      CleanNone(m, ft, i);
    } else {
      FlushTurn(cfg, st, m, s, ft, i);
      var p := Memory.Pid(ft, i);
      var (m', s', code) := FlushPage(cfg, st, m, s, p);
      assert m' == if m.pages[p].modified then Cleaned(m, p) else m;
      assert !m.pages[p].modified ==> code == Correct;
      hide FlushFrom, FlushPage, Cleaned;
      if code == Correct {
        upto := FlushFromCleans(cfg, st, m', s', ft, i + 1);
        if upto > i { CleanOneMore(m, ft, i, upto); }
      } else {
        upto := i + 1;
        CleanOneMore(m, ft, i, upto);
      }
    }
  }

  /** A FLUSH is, for the memory, one of the requests over which the frame table is kept. */
  lemma PersistIsRequest(cfg: Config, st: Memory.Setup, m: Mem, s: Store, ft: FileTag) returns (upto: nat)
    requires cfg.Valid() && cfg.blockSize == st.size && StoreOk(s) && Inv(st, m)
    ensures Memory.Shaped(st, m) && Serve(st, m, FlushOf(ft, upto)) == (Persist(cfg, st, m, s, ft).0, Memory.Done)
    ensures Inv(st, Persist(cfg, st, m, s, ft).0)
  {
    CleanInvAny(st, m, ft);
    InvShaped(st, m);
    hide Inv, FlushFrom, StoreOk;
    if ft in m.lengths {
      upto := FlushFromCleans(cfg, st, m, s, ft, 0);
    } else {
      upto := 0;
      CleanNone(m, ft, 0);
    }
  }

  lemma CleanInvAny(st: Memory.Setup, m: Mem, ft: FileTag)
    requires Inv(st, m)
    ensures forall upto: nat :: Inv(st, CleanPages(m, ft, 0, upto))
  {
    forall upto: nat ensures Inv(st, CleanPages(m, ft, 0, upto)) { CleanInv(st, m, ft, 0, upto); }
  }

  /** The loop, one turn unfolded. */
  lemma FlushTurn(cfg: Config, st: Memory.Setup, m: Mem, s: Store, ft: FileTag, i: nat)
    requires cfg.Valid() && cfg.blockSize == st.size && Memory.Shaped(st, m) && StoreOk(s)
    requires ft in m.lengths && i < m.lengths[ft]
    ensures Memory.Pid(ft, i) in m.pages
    ensures var (m', s', code) := FlushPage(cfg, st, m, s, Memory.Pid(ft, i));
            && Memory.Shaped(st, m') && StoreOk(s') && m'.lengths == m.lengths
            && FlushFrom(cfg, st, m, s, ft, i) == if code != Correct then (m', s', code) else FlushFrom(cfg, st, m', s', ft, i + 1)
  {
    hide FlushPage;
  }

  lemma FlushEnd(cfg: Config, st: Memory.Setup, m: Mem, s: Store, ft: FileTag, i: nat)
    requires cfg.Valid() && cfg.blockSize == st.size && Memory.Shaped(st, m) && StoreOk(s)
    requires ft in m.lengths && i == m.lengths[ft]
    ensures FlushFrom(cfg, st, m, s, ft, i) == (m, s, Correct)
  {
  }

  // ------------------------------------------------------- when the storage refuses

  lemma CleanShaped(st: Memory.Setup, m: Mem, ft: FileTag, from: nat, to: nat)
    requires Memory.Shaped(st, m)
    ensures Memory.Shaped(st, CleanPages(m, ft, from, to))
  {
    var r := CleanPages(m, ft, from, to);
    assert forall p :: p in r.pages <==> p in m.pages;
  }

  /** Cleaning page `i` first, or after the pages from `k` on, is the same. */
  lemma CleanApart(m: Mem, ft: FileTag, i: nat, k: nat, to: nat)
    requires Memory.Pid(ft, i) in m.pages && i < k
    ensures var c := CleanPages(m, ft, k, to);
            && Memory.Pid(ft, i) in c.pages && c.pages[Memory.Pid(ft, i)] == m.pages[Memory.Pid(ft, i)] && c.bytes == m.bytes
            && Cleaned(c, Memory.Pid(ft, i)) == CleanPages(Cleaned(m, Memory.Pid(ft, i)), ft, k, to)
  {
  }

  /** From page `k` on nothing counts as dirty any more. */
  lemma NoneDirty(st: Memory.Setup, m: Mem, a: Plain, ft: FileTag, k: nat)
    requires Memory.Shaped(st, m) && ft in m.lengths && Memory.Shaped(st, CleanPages(m, ft, k, m.lengths[ft]))
    ensures Flushed(st, CleanPages(m, ft, k, m.lengths[ft]), a, a, ft, k)
  {
    var c := CleanPages(m, ft, k, m.lengths[ft]);
    forall j: nat ensures !Dirty(c, ft, k, j) {
    }
    hide Memory.Shaped, Memory.FrameOf, CleanPages;
  }

  lemma SkipCleanPlain(st: Memory.Setup, m: Mem, a: Plain, a': Plain, ft: FileTag, i: nat)
    requires Memory.Shaped(st, m) && Memory.Pid(ft, i) in m.pages && !m.pages[Memory.Pid(ft, i)].modified
    requires Flushed(st, m, a, a', ft, i + 1)
    ensures Flushed(st, m, a, a', ft, i)
  {
    forall k: nat ensures Dirty(m, ft, i, k) == Dirty(m, ft, i + 1, k) {
      assert k == i ==> !Dirty(m, ft, i, k);
    }
    forall t, k: nat | t in a.tags && k < |a.tags[t].data| ensures FlushedAt(st, m, a, a', ft, i, t, k) {
      assert FlushedAt(st, m, a, a', ft, i + 1, t, k);
    }
  }

  /** A refused block write changes nothing of the store. */
  lemma PageRefused(cfg: Config, s: Store, ft: FileTag, n: nat, block: Block)
    requires Safe(cfg, s) && |block| == cfg.blockSize
    requires Step(cfg, s, WriteBlock(ft, n, block)).1.code != Correct
    ensures Step(cfg, s, WriteBlock(ft, n, block)).0 == s
  {
    StepRefines(cfg, s, WriteBlock(ft, n, block));
  }

  /** Page `k` was modified; it and the pages from `i` up to it are clean, and nothing else of the memory changed. */
  ghost predicate StoppedAt(m: Mem, m': Mem, ft: FileTag, i: nat, k: nat) {
    i <= k && Memory.Pid(ft, k) in m.pages && m.pages[Memory.Pid(ft, k)].modified && m' == CleanPages(m, ft, i, k + 1)
  }

  /** The blocks of the pages modified from `i` up to `k`, and no other block, changed. */
  ghost predicate WrittenBelow(st: Memory.Setup, m: Mem, a: Plain, a': Plain, ft: FileTag, i: nat, k: nat)
    requires Memory.Shaped(st, m) && ft in m.lengths
  {
    CleanShaped(st, m, ft, k, m.lengths[ft]);
    Flushed(st, CleanPages(m, ft, k, m.lengths[ft]), a, a', ft, i)
  }

  /** What the storage answers to the write of page `k`. */
  function AnswerTo(cfg: Config, st: Memory.Setup, m: Mem, s: Store, ft: FileTag, k: nat): Code
    requires cfg.Valid() && cfg.blockSize == st.size && Memory.Shaped(st, m) && StoreOk(s) && Memory.Pid(ft, k) in m.pages
  {
    Step(cfg, s, WriteBlock(ft, k, Memory.FrameOf(st, m.bytes, m.pages[Memory.Pid(ft, k)].frame))).1.code
  }

  lemma StoppedLater(m: Mem, m1: Mem, m': Mem, ft: FileTag, i: nat, k: nat)
    requires Memory.Pid(ft, i) in m.pages && i < k
    requires m1 == if m.pages[Memory.Pid(ft, i)].modified then Cleaned(m, Memory.Pid(ft, i)) else m
    requires StoppedAt(m1, m', ft, i + 1, k)
    ensures StoppedAt(m, m', ft, i, k)
    ensures Memory.Pid(ft, k) in m.pages && m1.pages[Memory.Pid(ft, k)] == m.pages[Memory.Pid(ft, k)] && m1.bytes == m.bytes
  {
    CleanOneMore(m, ft, i, k + 1);
    hide CleanPages;
  }

  lemma AcceptedLater(st: Memory.Setup, m: Mem, a: Plain, a1: Plain, a': Plain, ft: FileTag, i: nat, k: nat)
    requires Memory.Shaped(st, m) && Memory.Pid(ft, i) in m.pages && m.pages[Memory.Pid(ft, i)].modified && i < k && ft in m.lengths
    requires Memory.Shaped(st, Cleaned(m, Memory.Pid(ft, i)))
    requires ft in a.tags && i < |a.tags[ft].data|
    requires a1 == a.(tags := a.tags[ft := a.tags[ft].(data := a.tags[ft].data[i := Memory.FrameOf(st, m.bytes, m.pages[Memory.Pid(ft, i)].frame)])])
    requires WrittenBelow(st, Cleaned(m, Memory.Pid(ft, i)), a1, a', ft, i + 1, k)
    ensures WrittenBelow(st, m, a, a', ft, i, k)
  {
    var c := CleanPages(m, ft, k, m.lengths[ft]);
    CleanShaped(st, m, ft, k, m.lengths[ft]);
    CleanShaped(st, Cleaned(m, Memory.Pid(ft, i)), ft, k, m.lengths[ft]);
    CleanApart(m, ft, i, k, m.lengths[ft]);
    hide Flushed, CleanPages, Memory.Shaped, Memory.FrameOf;
    OneFlushed(st, c, a, a1, a', ft, i);
  }

  lemma CleanLater(st: Memory.Setup, m: Mem, a: Plain, a': Plain, ft: FileTag, i: nat, k: nat)
    requires Memory.Shaped(st, m) && Memory.Pid(ft, i) in m.pages && !m.pages[Memory.Pid(ft, i)].modified && i < k && ft in m.lengths
    requires WrittenBelow(st, m, a, a', ft, i + 1, k)
    ensures WrittenBelow(st, m, a, a', ft, i, k)
  {
    CleanShaped(st, m, ft, k, m.lengths[ft]);
    CleanApart(m, ft, i, k, m.lengths[ft]);
    hide Flushed, CleanPages, Memory.Shaped, Memory.FrameOf;
    SkipCleanPlain(st, CleanPages(m, ft, k, m.lengths[ft]), a, a', ft, i);
  }

  lemma StoppedHere(st: Memory.Setup, m: Mem, a: Plain, ft: FileTag, i: nat)
    requires Memory.Shaped(st, m) && Memory.Pid(ft, i) in m.pages && m.pages[Memory.Pid(ft, i)].modified && ft in m.lengths
    ensures StoppedAt(m, Cleaned(m, Memory.Pid(ft, i)), ft, i, i) && WrittenBelow(st, m, a, a, ft, i, i)
  {
    CleanOneMore(m, ft, i, i + 1);
    CleanShaped(st, m, ft, i, m.lengths[ft]);
    NoneDirty(st, m, a, ft, i);
    hide Flushed, CleanPages, Memory.Shaped;
  }

  /** The page at hand, in the loop. */
  lemma PageAtHand(cfg: Config, st: Memory.Setup, m: Mem, s: Store, p: Memory.Pid)
    requires cfg.Valid() && cfg.blockSize == st.size && Memory.Shaped(st, m) && StoreOk(s) && p in m.pages
    ensures FlushPage(cfg, st, m, s, p) ==
            if m.pages[p].modified then
              (Cleaned(m, p), Step(cfg, s, WriteBlock(p.owner, p.num, Memory.FrameOf(st, m.bytes, m.pages[p].frame))).0,
               AnswerTo(cfg, st, m, s, p.owner, p.num))
            else (m, s, Correct)
  {
    assert p == Memory.Pid(p.owner, p.num);
    hide Step;
  }

  /**
   A FLUSH that is refused, at page `k`: that page and those before it are clean, those
   after it as they were; the blocks of the modified pages before it are written and
   nothing else of the store changes; and the code is the storage's answer to page `k`.
   */
  lemma {:induction false} FlushRefused(cfg: Config, st: Memory.Setup, m: Mem, s: Store, ft: FileTag, i: nat) returns (k: nat)
    requires cfg.Valid() && cfg.blockSize == st.size && Memory.Shaped(st, m) && Safe(cfg, s) && StoreOk(s)
    requires ft in m.lengths && i <= m.lengths[ft] && FlushFrom(cfg, st, m, s, ft, i).2 != Correct
    ensures var (m', s', code) := FlushFrom(cfg, st, m, s, ft, i);
            && StoppedAt(m, m', ft, i, k) && Memory.Pid(ft, k) in m.pages
            && code == AnswerTo(cfg, st, m, s', ft, k)
            && Safe(cfg, s') && WrittenBelow(st, m, Abstract(s), Abstract(s'), ft, i, k)
    decreases m.lengths[ft] - i
  {
    hide *;
    if i == m.lengths[ft] {
      FlushEnd(cfg, st, m, s, ft, i);
      assert false;
    } else {
      var p := Memory.Pid(ft, i);
      FlushTurn(cfg, st, m, s, ft, i);
      PageAtHand(cfg, st, m, s, p);
      if !m.pages[p].modified {
        k := FlushRefused(cfg, st, m, s, ft, i + 1);
        StoppedAfter(m, FlushFrom(cfg, st, m, s, ft, i).0, ft, i + 1, k);
        StoppedLater(m, m, FlushFrom(cfg, st, m, s, ft, i).0, ft, i, k);
        CleanLater(st, m, Abstract(s), Abstract(FlushFrom(cfg, st, m, s, ft, i).1), ft, i, k);
      } else {
        FrameKnown(cfg, st, m, p);
        var block := Memory.FrameOf(st, m.bytes, m.pages[p].frame);
        var s1 := Step(cfg, s, WriteBlock(ft, i, block)).0;
        if AnswerTo(cfg, st, m, s, ft, i) == Correct {
          var m1 := Cleaned(m, p);
          AnswerIs(cfg, st, m, s, ft, i);
          PageWritten(cfg, s, ft, i, block);
          SafeOk(cfg, s1);
          CleanedLengths(m, p);
          k := FlushRefused(cfg, st, m1, s1, ft, i + 1);
          var (m', s', code) := FlushFrom(cfg, st, m, s, ft, i);
          StoppedAfter(m1, m', ft, i + 1, k);
          StoppedLater(m, m1, m', ft, i, k);
          AnswerSame(cfg, st, m, m1, s', ft, k);
          AcceptedLater(st, m, Abstract(s), Abstract(s1), Abstract(s'), ft, i, k);
        } else {
          k := i;
          AnswerIs(cfg, st, m, s, ft, i);
          PageRefused(cfg, s, ft, i, block);
          StoppedHere(st, m, Abstract(s), ft, i);
        }
      }
    }
  }

  lemma FrameKnown(cfg: Config, st: Memory.Setup, m: Mem, p: Memory.Pid)
    requires cfg.blockSize == st.size && Memory.Shaped(st, m) && p in m.pages
    ensures |m.bytes| == Memory.Start(st.size, st.frames) && m.pages[p].frame < st.frames
    ensures WellFormed(cfg, WriteBlock(p.owner, p.num, Memory.FrameOf(st, m.bytes, m.pages[p].frame)))
  {
  }

  lemma StoppedAfter(m: Mem, m': Mem, ft: FileTag, i: nat, k: nat)
    requires StoppedAt(m, m', ft, i, k)
    ensures i <= k
  {
  }

  lemma CleanedLengths(m: Mem, p: Memory.Pid)
    requires p in m.pages
    ensures Cleaned(m, p).lengths == m.lengths
  {
  }

  lemma AnswerIs(cfg: Config, st: Memory.Setup, m: Mem, s: Store, ft: FileTag, k: nat)
    requires cfg.Valid() && cfg.blockSize == st.size && Memory.Shaped(st, m) && StoreOk(s) && Memory.Pid(ft, k) in m.pages
    ensures AnswerTo(cfg, st, m, s, ft, k) ==
            Step(cfg, s, WriteBlock(ft, k, Memory.FrameOf(st, m.bytes, m.pages[Memory.Pid(ft, k)].frame))).1.code
  {
  }

  lemma AnswerSame(cfg: Config, st: Memory.Setup, m: Mem, m1: Mem, s: Store, ft: FileTag, k: nat)
    requires cfg.Valid() && cfg.blockSize == st.size && Memory.Shaped(st, m) && Memory.Shaped(st, m1) && StoreOk(s)
    requires Memory.Pid(ft, k) in m.pages && Memory.Pid(ft, k) in m1.pages
    requires m1.pages[Memory.Pid(ft, k)] == m.pages[Memory.Pid(ft, k)] && m1.bytes == m.bytes
    ensures AnswerTo(cfg, st, m1, s, ft, k) == AnswerTo(cfg, st, m, s, ft, k)
  {
    hide Step, Memory.Shaped;
  }

  /** FLUSH fails only so: with a table, at a modified page that the storage refuses. */
  lemma PersistRefused(cfg: Config, st: Memory.Setup, m: Mem, s: Store, ft: FileTag) returns (k: nat)
    requires cfg.Valid() && cfg.blockSize == st.size && Memory.Shaped(st, m) && Safe(cfg, s) && StoreOk(s)
    requires Persist(cfg, st, m, s, ft).2 != Correct
    ensures var (m', s', code) := Persist(cfg, st, m, s, ft);
            && ft in m.lengths && StoppedAt(m, m', ft, 0, k) && Memory.Pid(ft, k) in m.pages
            && code == AnswerTo(cfg, st, m, s', ft, k)
            && Safe(cfg, s') && WrittenBelow(st, m, Abstract(s), Abstract(s'), ft, 0, k)
  {
    assert ft in m.lengths;
    hide FlushFrom, StoppedAt, AnswerTo, WrittenBelow, Safe, Abstract, Memory.Shaped, StoreOk;
    k := FlushRefused(cfg, st, m, s, ft, 0);
  }

  method PersistPage(worker: Worker, disk: Storage, p: Memory.Pid) returns (code: Code)
    requires disk.Valid() && disk.cfg.blockSize == worker.st.size && Memory.Shaped(worker.st, worker.State()) && p in worker.pages
    modifies worker`pages, disk, disk.bitmap
    ensures disk.Valid() && disk.bitmap == old(disk.bitmap)
    ensures (worker.State(), disk.View(), code)
            == FlushPage(disk.cfg, worker.st, old(worker.State()), old(disk.View()), p)
  {
    if !worker.pages[p].modified { return Correct; }
    Memory.FrameBounds(worker.pages[p].frame, worker.st.frames, worker.st.size);
    var at := Memory.Start(worker.st.size, worker.pages[p].frame);
    var reply := disk.Serve(WriteBlock(p.owner, p.num, worker.bytes[at..at + worker.st.size]));
    worker.SetPage(p, worker.pages[p].(modified := false));
    code := reply.code;
  }

  /** The loop over the objects. */
  method PersistPages(worker: Worker, disk: Storage, ft: FileTag) returns (code: Code)
    requires disk.Valid() && disk.cfg.blockSize == worker.st.size && Memory.Shaped(worker.st, worker.State())
    requires ft in worker.lengths
    modifies worker`pages, disk, disk.bitmap
    ensures disk.Valid() && disk.bitmap == old(disk.bitmap)
    ensures (worker.State(), disk.View(), code)
            == FlushFrom(disk.cfg, worker.st, old(worker.State()), old(disk.View()), ft, 0)
  {
    code := Correct;
    var i: nat := 0;
    ghost var whole := FlushFrom(disk.cfg, worker.st, worker.State(), disk.View(), ft, 0);
    hide FlushFrom;
    hide FlushPage;
    hide Memory.Shaped;
    hide StoreOk;
    while i < worker.lengths[ft]
      invariant disk.Valid() && disk.bitmap == old(disk.bitmap) && Memory.Shaped(worker.st, worker.State())
      invariant ft in worker.lengths && i <= worker.lengths[ft] && worker.lengths == old(worker.lengths)
      invariant FlushFrom(disk.cfg, worker.st, worker.State(), disk.View(), ft, i) == whole
    {
      FlushTurn(disk.cfg, worker.st, worker.State(), disk.View(), ft, i);
      code := PersistPage(worker, disk, Memory.Pid(ft, i));
      if code != Correct { return; }
      i := i + 1;
    }
    FlushEnd(disk.cfg, worker.st, worker.State(), disk.View(), ft, i);
    code := Correct;
  }

  /** FLUSH. */
  method PersistTag(worker: Worker, disk: Storage, ft: FileTag) returns (code: Code)
    requires disk.Valid() && disk.cfg.blockSize == worker.st.size && Memory.Shaped(worker.st, worker.State())
    modifies worker`pages, disk, disk.bitmap
    ensures disk.Valid() && disk.bitmap == old(disk.bitmap)
    ensures (worker.State(), disk.View(), code)
            == Persist(disk.cfg, worker.st, old(worker.State()), old(disk.View()), ft)
  {
    if ft !in worker.lengths { return Correct; }
    code := PersistPages(worker, disk, ft);
  }
}
