/** The frame table over whole runs, and exactly when two hazards of replacement strike. */
module MemoryRuns {
  import opened Common
  import opened Clock
  import opened Memory
  import opened MemoryInvariant
  import opened MemoryAccess
  import opened FlatMemory

  /**
   A READ or WRITE of the worker, with the storage's answers while it is served, or
   a FLUSH, which ends after page `upto - 1`: the last one, or one the storage
   refuses. Writing everything back is one FLUSH a table.
   */
  datatype Request =
    | WriteAt(ft: FileTag, base: nat, content: seq<byte>, ask: nat -> Answer)
    | ReadAt(ft: FileTag, base: nat, length: nat, ask: nat -> Answer)
    | FlushOf(ft: FileTag, upto: nat)

  ghost predicate Sensible(st: Setup, r: Request) {
    match r
    case WriteAt(_, _, content, ask) => |content| > 0 && forall n :: Answers(st, ask(n))
    case ReadAt(_, _, length, ask) => length > 0 && forall n :: Answers(st, ask(n))
    case FlushOf(_, _) => true
  }

  /** Pages `from` up to `upto` of a table are marked clean. */
  function CleanPages(m: Memory, ft: FileTag, from: nat, upto: nat): Memory {
    m.(pages := map p | p in m.pages ::
         if p.owner == ft && from <= p.num < upto then m.pages[p].(modified := false) else m.pages[p])
  }

  lemma CleanInv(st: Setup, m: Memory, ft: FileTag, from: nat, upto: nat)
    requires Inv(st, m)
    ensures Inv(st, CleanPages(m, ft, from, upto))
  {
    var r := CleanPages(m, ft, from, upto);
    assert Reflagged(m, r);
    hide Inv, Reflagged;
    ReflaggedInv(st, m, r);
  }

  ghost function Serve(st: Setup, m: Memory, r: Request): (Memory, Outcome)
    requires Inv(st, m) && Sensible(st, r)
  {
    match r
    case WriteAt(ft, base, content, ask) => WriteMemory(st, m, ft, base, content, ask)
    case ReadAt(ft, base, length, ask) => var (m', _, outcome) := ReadMemory(st, m, ft, base, length, ask); (m', outcome)
    case FlushOf(ft, upto) => (CleanPages(m, ft, 0, upto), Done)
  }

  lemma ServeInv(st: Setup, m: Memory, r: Request)
    requires Inv(st, m) && Sensible(st, r)
    ensures !Serve(st, m, r).1.Dangling? ==> Inv(st, Serve(st, m, r).0)
  {
    match r {
      case WriteAt(ft, base, content, ask) =>
        TransferStart(st, m, ft, base, content, 1, ask);
        WriteLoopInv(st, m, ft, PageOf(st, base), ByteOf(st, base), content, Turns(st, |content|), ask);
      case ReadAt(ft, base, length, ask) =>
        TransferStart(st, m, ft, base, [0], length, ask);
        ReadLoopInv(st, m, ft, PageOf(st, base), ByteOf(st, base), length, Turns(st, length), ask, []);
      case FlushOf(ft, upto) => CleanInv(st, m, ft, 0, upto);
    }
  }

  function Empty(st: Setup): Memory
    requires st.Valid()
  {
    Memory(map[], map[], [], seq(st.frames, _ => false), Zeros(Start(st.size, st.frames)), 0, [], [])
  }

  lemma EmptyInv(st: Setup)
    requires st.Valid()
    ensures Inv(st, Empty(st))
  {
    assert FrameList(map[], []) == [];
  }

  /** `m'` is reached from `m` by serving the requests, none of which runs into a freed table. */
  ghost predicate Reaches(st: Setup, m: Memory, rs: seq<Request>, m': Memory)
    requires Inv(st, m)
    decreases |rs|
  {
    if rs == [] then m' == m
    else
      && Sensible(st, rs[0])
      && var (next, outcome) := Serve(st, m, rs[0]);
         !outcome.Dangling? && (ServeInv(st, m, rs[0]); Reaches(st, next, rs[1..], m'))
  }

  /** What the invariant says of a state, in the terms of the frame table. */
  ghost predicate FrameTable(st: Setup, m: Memory) {
    && Shaped(st, m)
    && (forall p, q :: p in m.pages && q in m.pages && p != q && m.pages[p].present && m.pages[q].present ==>
          m.pages[p].frame != m.pages[q].frame)
    && (forall f: nat :: f < st.frames ==> (m.bitmap[f] <==> exists p :: p in m.pages && m.pages[p].present && m.pages[p].frame == f))
    && (forall p :: p in m.loaded <==> p in m.pages && m.pages[p].present)
    && (forall p :: p in m.pages && m.pages[p].modified ==> m.pages[p].present)
    && (st.policy == ClockM ==> forall i :: 0 <= i < |m.loaded| ==> m.pages[m.loaded[i]].frame == i)
  }

  lemma EntryHoldsItsFrame(st: Setup, m: Memory)
    requires Inv(st, m) && st.policy == ClockM
    ensures forall i :: 0 <= i < |m.loaded| ==> m.pages[m.loaded[i]].frame == i
  {
    var fr := FrameList(m.pages, m.loaded);
    forall i | 0 <= i < |m.loaded| ensures m.pages[m.loaded[i]].frame == i {
      assert fr[i] == i;
    }
  }

  lemma InvMeans(st: Setup, m: Memory)
    requires Inv(st, m)
    ensures FrameTable(st, m)
  {
    var fr := FrameList(m.pages, m.loaded);
    forall p, q | p in m.pages && q in m.pages && p != q && m.pages[p].present && m.pages[q].present
      ensures m.pages[p].frame != m.pages[q].frame
    {
      FramesDiffer(st, m, p, q);
    }
    if st.policy == ClockM { EntryHoldsItsFrame(st, m); }
    forall f: nat | f < st.frames
      ensures m.bitmap[f] <==> exists p :: p in m.pages && m.pages[p].present && m.pages[p].frame == f
    {
      if m.bitmap[f] {
        var i :| 0 <= i < |fr| && fr[i] == f;
        assert m.loaded[i] in m.loaded;
      }
      if p :| p in m.pages && m.pages[p].present && m.pages[p].frame == f {
        assert p in m.loaded;
        var i :| 0 <= i < |m.loaded| && m.loaded[i] == p;
        assert fr[i] == f;
      }
    }
  }

  /** Over every run of reads, writes, flushes and evictions the frame table is in order. */
  lemma {:induction false} FrameTableOverRuns(st: Setup, m: Memory, rs: seq<Request>, m': Memory)
    requires Inv(st, m) && Reaches(st, m, rs, m')
    ensures Inv(st, m') && FrameTable(st, m')
    decreases |rs|
  {
    hide Inv;
    hide FrameTable;
    if rs == [] {
      InvMeans(st, m');
    } else {
      ServeInv(st, m, rs[0]);
      FrameTableOverRuns(st, Serve(st, m, rs[0]).0, rs[1..], m');
    }
  }

  // ------------------------------------------------------------------ hazards

  /** The page the code would evict next. */
  function NextVictim(st: Setup, m: Memory): Pid
    requires Shaped(st, m) && |m.loaded| == st.frames
  {
    PickVictim(st, m).1
  }

  /** The append branch goes on with a freed table exactly when memory is full and the victim is the last present page of that table. */
  lemma DanglingIff(st: Setup, m: Memory, p: Pid, write: bool)
    requires Inv(st, m) && p !in m.pages
    ensures LoadNew(st, m, p, write).None? <==>
              && p.owner in m.lengths
              && |m.loaded| == st.frames
              && NextVictim(st, m).owner == p.owner
              && forall q :: q in m.pages && q.owner == p.owner && m.pages[q].present ==> q == NextVictim(st, m)
  {
    NewReady(st, m, p, write);
    FullWhenNoneFree(st, m, {});
    if FindFree(m.bitmap, 0).None? {
      var i := PickIsPicked(st, m);
      var (picked, v) := PickVictim(st, m);
      FreeFacts(st, picked, v);
      var r := FreeVictim(st, picked, v);
      if v.owner in r.lengths {
        var q :| q in r.pages && q.owner == v.owner && r.pages[q].present;
        assert q != v && q in m.pages && m.pages[q].present;
      }
    }
  }

  /** The page number a modified victim is written back under. */
  function WrittenBackAs(st: Setup, m: Memory): (num: nat)
    requires Shaped(st, m) && |m.loaded| == st.frames
  {
    var (picked, v) := PickVictim(st, m);
    var r := PageWithFrame(picked, v.owner, picked.pages[v].frame, picked.lengths[v.owner]);
    if r.Some? then r.value else 0
  }

  /** It is the victim's own exactly when no later page of its table, absent ones included, carries the same frame number. */
  lemma WriteBackHitsItsPageIff(st: Setup, m: Memory)
    requires Inv(st, m) && |m.loaded| == st.frames
    ensures var v := NextVictim(st, m);
            && v in m.pages
            && (WrittenBackAs(st, m) == v.num <==>
                forall k: nat :: v.num < k < m.lengths[v.owner] ==> m.pages[Pid(v.owner, k)].frame != m.pages[v].frame)
            && (m.pages[v].modified ==>
                  FreeVictim(st, PickVictim(st, m).0, v).sent
                  == m.sent + [BlockWrite(v.owner, WrittenBackAs(st, m), FrameOf(st, m.bytes, m.pages[v].frame))])
  {
    var i := PickIsPicked(st, m);
    var (picked, v) := PickVictim(st, m);
    assert v in m.pages && v == Pid(v.owner, v.num);
    forall k: nat | k < m.lengths[v.owner]
      ensures Pid(v.owner, k) in m.pages && picked.pages[Pid(v.owner, k)].frame == m.pages[Pid(v.owner, k)].frame
    {
    }
    var r := PageWithFrame(picked, v.owner, picked.pages[v].frame, picked.lengths[v.owner]);
    assert r.Some?;
  }
}
