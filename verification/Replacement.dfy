/** Which page leaves memory: under CLOCK-M the one the scan picks, under the policy called LRU the one loaded longest ago, in every run. */
module Replacement {
  import opened Common
  import opened Clock
  import opened Memory
  import opened MemoryInvariant
  import opened MemoryAccess
  import opened FlatMemory
  import opened MemoryRuns

  // ------------------------------------------------------------------ one access

  /** The victim is the head of the list, and the list left is its tail. */
  lemma LruEvictsHead(st: Setup, m: Memory)
    requires st.policy == Lru && Shaped(st, m) && |m.loaded| == st.frames
    ensures NextVictim(st, m) == m.loaded[0] && PickVictim(st, m).0 == m.(loaded := m.loaded[1..])
  {
    assert Without(m.loaded, 0) == m.loaded[1..];
  }

  /** Under CLOCK-M the victim is the entry of the choice, counted from the hand and modulo the number of frames; it leaves the list and the hand stops one past it. */
  lemma ClockEvicts(st: Setup, m: Memory)
    requires st.policy == ClockM && Shaped(st, m) && |m.loaded| == st.frames
    ensures var c := Choose(FlagsOf(m.pages, m.loaded), m.hand); var i := (m.hand + c.offset) % st.frames;
            && IsChoice(FlagsOf(m.pages, m.loaded), m.hand, c)
            && NextVictim(st, m) == m.loaded[i]
            && PickVictim(st, m).0.loaded == m.loaded[..i] + m.loaded[i + 1..]
            && PickVictim(st, m).0.hand == (i + 1) % st.frames
  {
    var c := Choose(FlagsOf(m.pages, m.loaded), m.hand);
    Around(st.frames, m.hand, c.offset);
    NextAround(st, At(st.frames, m.hand, c.offset));
    hide IsChoice, Choose, Shaped, At, Next;
  }

  /** The entry `k` places after the hand loses its use bit when it is one of the first `count`, and nothing else changes of it. */
  ghost predicate EntryCleared(pages: map<Pid, Page>, cleared: map<Pid, Page>, loaded: seq<Pid>, hand: nat, count: nat, k: nat)
    requires k < |loaded|
  {
    var p := loaded[(hand + k) % |loaded|];
    p in pages && p in cleared && cleared[p] == if k < count then pages[p].(used := false) else pages[p]
  }

  /** Under CLOCK-M the use bits of as many entries as the choice says are cleared, counted from the hand; no page changes otherwise. */
  lemma ClockClears(st: Setup, m: Memory)
    requires st.policy == ClockM && Shaped(st, m) && |m.loaded| == st.frames
    ensures var r := PickVictim(st, m).0; var count := Choose(FlagsOf(m.pages, m.loaded), m.hand).cleared;
            && (forall k: nat :: k < |m.loaded| ==> EntryCleared(m.pages, r.pages, m.loaded, m.hand, count, k))
            && r.pages.Keys == m.pages.Keys && forall p :: p in m.pages && p !in m.loaded ==> r.pages[p] == m.pages[p]
  {
    ShapedList(st, m);
    hide *;
    PickClears(st, m);
    ClearedEntries(m.pages, PickVictim(st, m).0.pages, m.loaded, m.hand, Choose(FlagsOf(m.pages, m.loaded), m.hand).cleared);
  }

  lemma ClearedEntries(pages: map<Pid, Page>, cleared: map<Pid, Page>, loaded: seq<Pid>, hand: nat, count: nat)
    requires hand < |loaded| && count <= |loaded| && Distinct(loaded) && forall p :: p in loaded ==> p in pages
    requires cleared == ClearUsed(pages, Passed(loaded, hand, count))
    ensures forall k: nat :: k < |loaded| ==> EntryCleared(pages, cleared, loaded, hand, count, k)
    ensures cleared.Keys == pages.Keys && forall p :: p in pages && p !in loaded ==> cleared[p] == pages[p]
  {
    forall k: nat | k < |loaded| ensures EntryCleared(pages, cleared, loaded, hand, count, k) {
      Around(|loaded|, hand, k);
      EntriesApart(loaded, hand, count, k);
    }
    hide At, Distinct, EntryCleared;
  }

  lemma ShapedList(st: Setup, m: Memory)
    requires Shaped(st, m)
    ensures m.hand < st.frames && Distinct(m.loaded) && forall p :: p in m.loaded ==> p in m.pages
  {
  }

  lemma PickClears(st: Setup, m: Memory)
    requires st.policy == ClockM && Shaped(st, m) && |m.loaded| == st.frames && m.hand < st.frames
    requires forall p :: p in m.loaded ==> p in m.pages
    ensures var c := Choose(FlagsOf(m.pages, m.loaded), m.hand);
            PickVictim(st, m).0.pages == ClearUsed(m.pages, Passed(m.loaded, m.hand, c.cleared))
  {
    hide Shaped, IsChoice, Choose, ClearUsed, FlagsOf;
  }

  lemma Around(n: nat, hand: nat, k: nat)
    requires hand < n && k < n
    ensures At(n, hand, k) == (hand + k) % n
  {
  }

  lemma NextAround(st: Setup, i: nat)
    requires i < st.frames
    ensures Next(st, i) == (i + 1) % st.frames
  {
  }

  lemma EntriesApart(loaded: seq<Pid>, hand: nat, count: nat, k: nat)
    requires hand < |loaded| && count <= |loaded| && k < |loaded| && Distinct(loaded)
    ensures loaded[At(|loaded|, hand, k)] in Passed(loaded, hand, count) <==> k < count
  {
  }

  /** What is in memory, and the record of loads, once a frame is taken. */
  lemma AssignList(st: Setup, m: Memory)
    requires Shaped(st, m) && (FindFree(m.bitmap, 0).None? ==> |m.loaded| == st.frames)
    ensures var a := AssignFrame(st, m).0;
            && a.history == m.history
            && (st.policy == Lru ==> a.loaded == if FindFree(m.bitmap, 0).None? then m.loaded[1..] else m.loaded)
  {
    if FindFree(m.bitmap, 0).None? && st.policy == Lru { LruEvictsHead(st, m); }
    hide Shaped, FrameOf;
  }

  lemma AbsentList(st: Setup, m: Memory, p: Pid, write: bool)
    requires Inv(st, m) && p in m.pages && !m.pages[p].present
    ensures var r := LoadAbsent(st, m, p, write);
            && r.history == m.history + [p]
            && (st.policy == Lru ==> r.loaded == (if FindFree(m.bitmap, 0).None? then m.loaded[1..] else m.loaded) + [p])
  {
    AbsentReady(st, m, p, write);
    AssignList(st, Marked(m, p, write));
    var (a, f) := AssignFrame(st, Marked(m, p, write));
    var placed := Placed(a, p, f);
    RegisterTidy(st, placed, p, f);
    RegisterShape(st, placed, p, f, if st.policy == ClockM then f else |placed.loaded|);
    assert LoadAbsent(st, m, p, write) == Register(st, placed, p);
    assert placed.loaded == a.loaded && placed.history == a.history;
    hide AssignFrame, Register, Tidy, Inv, Shaped, LoadAbsent, Placed, FindFree;
    AtTheEnd(placed.loaded, p);
  }

  lemma AtTheEnd(s: seq<Pid>, p: Pid)
    ensures InsertAt(s, |s|, p) == s + [p]
  {
  }

  lemma NewList(st: Setup, m: Memory, p: Pid, write: bool)
    requires Inv(st, m) && p !in m.pages && LoadNew(st, m, p, write).Some?
    ensures var r := LoadNew(st, m, p, write).value;
            && r.history == m.history + [p]
            && (st.policy == Lru ==> r.loaded == (if FindFree(m.bitmap, 0).None? then m.loaded[1..] else m.loaded) + [p])
  {
    NewReady(st, m, p, write);
    AssignList(st, m);
    var (a, f) := AssignFrame(st, m);
    var e := ExtendTable(a, p.owner, p.num, Page(f, true, true, write));
    assert e.loaded == a.loaded && e.history == a.history;
    RegisterTidy(st, e, p, f);
    RegisterShape(st, e, p, f, if st.policy == ClockM then f else |e.loaded|);
    assert LoadNew(st, m, p, write) == Some(Register(st, e, p));
    hide AssignFrame, Register, Tidy, Inv, Shaped, LoadNew, ExtendTable, FindFree;
    AtTheEnd(e.loaded, p);
  }

  /** An access that brings its page in puts it last, the head of the list having made room when no frame was free; a hit moves nothing. */
  lemma TouchList(st: Setup, m: Memory, p: Pid, write: bool, answer: Answer)
    requires Inv(st, m) && Answers(st, answer) && Touch(st, m, p, write, answer).1.Done?
    ensures var r := Touch(st, m, p, write, answer).0;
            if p in m.pages && m.pages[p].present then r.history == m.history && r.loaded == m.loaded
            else
              && r.history == m.history + [p]
              && (st.policy == Lru ==> r.loaded == (if FindFree(m.bitmap, 0).None? then m.loaded[1..] else m.loaded) + [p])
  {
    if p in m.pages && !m.pages[p].present { AbsentList(st, m, p, write); }
    if p !in m.pages && answer.Loaded? { NewList(st, m, p, write); }
    hide LoadAbsent, LoadNew, Inv, Shaped, FindFree;
  }

  // ------------------------------------------------------------------ the order

  /** When `p` was last brought in. */
  function LastLoad(history: seq<Pid>, p: Pid): (i: nat)
    requires p in history
    ensures i < |history| && history[i] == p && forall j :: i < j < |history| ==> history[j] != p
  {
    var last := |history| - 1;
    if history[last] == p then last
    else
      assert history == history[..last] + [history[last]];
      LastLoad(history[..last], p)
  }

  lemma LoadedLater(history: seq<Pid>, p: Pid)
    ensures LastLoad(history + [p], p) == |history|
    ensures forall q :: q in history && q != p ==> LastLoad(history + [p], q) == LastLoad(history, q)
  {
    var h := history + [p];
    assert h[..|history|] == history;
  }

  ghost predicate Ordered(history: seq<Pid>, list: seq<Pid>) {
    && (forall i :: 0 <= i < |list| ==> list[i] in history)
    && forall i, j :: 0 <= i < j < |list| ==> LastLoad(history, list[i]) < LastLoad(history, list[j])
  }

  /** The list is in the order in which its pages were last brought in. */
  ghost predicate InLoadOrder(m: Memory) {
    Ordered(m.history, m.loaded)
  }

  lemma OrderedTail(history: seq<Pid>, list: seq<Pid>)
    requires Ordered(history, list) && list != []
    ensures Ordered(history, list[1..])
  {
    hide LastLoad;
  }

  lemma OrderedAppend(history: seq<Pid>, list: seq<Pid>, p: Pid)
    requires Ordered(history, list) && p !in list
    ensures Ordered(history + [p], list + [p])
  {
    LoadedLater(history, p);
    hide LastLoad;
    forall i, j | 0 <= i < j < |list| + 1
      ensures (list + [p])[i] in history + [p] && (list + [p])[j] in history + [p]
      ensures LastLoad(history + [p], (list + [p])[i]) < LastLoad(history + [p], (list + [p])[j])
    {
      assert list[i] in list;
      if j < |list| { assert list[j] in list; }
    }
  }

  /** Losing its head, or not, and gaining at the end a page just brought in. */
  lemma OrderOn(m: Memory, r: Memory, p: Pid)
    requires InLoadOrder(m) && p !in m.loaded && r.history == m.history + [p]
    requires r.loaded == m.loaded + [p] || (m.loaded != [] && r.loaded == m.loaded[1..] + [p])
    ensures InLoadOrder(r)
  {
    hide Ordered;
    if m.loaded != [] { OrderedTail(m.history, m.loaded); }
    OrderedAppend(m.history, if r.loaded == m.loaded + [p] then m.loaded else m.loaded[1..], p);
  }

  lemma TouchOrder(st: Setup, m: Memory, p: Pid, write: bool, answer: Answer)
    requires st.policy == Lru && Inv(st, m) && InLoadOrder(m) && Answers(st, answer)
    ensures !Touch(st, m, p, write, answer).1.Dangling? ==> InLoadOrder(Touch(st, m, p, write, answer).0)
  {
    var (r, outcome) := Touch(st, m, p, write, answer);
    InvShaped(st, m);
    FullWhenNoneFree(st, m, {});
    NotListed(st, m, p);
    hide Touch, Inv, FindFree, InLoadOrder;
    if outcome.Done? {
      TouchList(st, m, p, write, answer);
      if p in m.pages && m.pages[p].present { SameOrder(m, r); } else { OrderOn(m, r, p); }
    }
  }

  lemma NotListed(st: Setup, m: Memory, p: Pid)
    requires Inv(st, m)
    ensures st.frames > 0 && (p in m.loaded <==> p in m.pages && m.pages[p].present)
  {
  }

  lemma SameOrder(m: Memory, r: Memory)
    requires InLoadOrder(m) && r.history == m.history && r.loaded == m.loaded
    ensures InLoadOrder(r)
  {
  }

  // ------------------------------------------------------------------ runs

  lemma {:induction false} WriteOrder(st: Setup, m: Memory, ft: FileTag, num: nat, off: nat, content: seq<byte>, count: nat, ask: nat -> Answer)
    requires st.policy == Lru && Inv(st, m) && InLoadOrder(m) && off < st.size && forall n :: Answers(st, ask(n))
    ensures var (r, outcome) := WriteLoop(st, m, ft, num, off, content, count, ask); !outcome.Dangling? ==> InLoadOrder(r)
    decreases count
  {
    hide Inv, WriteLoop, WriteChunk, InLoadOrder, Touch;
    if count == 0 {
      WriteLoopEnd(st, m, ft, num, off, content, ask);
    } else {
      WriteLoopTurn(st, m, ft, num, off, content, count, ask);
      var n := Min(st.size - off, |content|);
      var (m', outcome) := WriteChunk(st, m, Pid(ft, num), off, content[..n], ask(num));
      WriteChunkLists(st, m, Pid(ft, num), off, content[..n], ask(num));
      TouchOrder(st, m, Pid(ft, num), true, ask(num));
      if !outcome.Dangling? { SameOrder(Touch(st, m, Pid(ft, num), true, ask(num)).0, m'); }
      if outcome.Done? { WriteOrder(st, m', ft, num + 1, 0, content[n..], count - 1, ask); }
    }
  }

  lemma WriteChunkLists(st: Setup, m: Memory, p: Pid, off: nat, data: seq<byte>, answer: Answer)
    requires Inv(st, m) && Answers(st, answer) && off + |data| <= st.size
    ensures var (r, outcome) := WriteChunk(st, m, p, off, data, answer); var (t, o) := Touch(st, m, p, true, answer);
            outcome == o && r.loaded == t.loaded && r.history == t.history
  {
    hide Inv, Touch;
  }

  lemma {:induction false} ReadOrder(st: Setup, m: Memory, ft: FileTag, num: nat, off: nat, length: nat, count: nat, ask: nat -> Answer, read: seq<byte>)
    requires st.policy == Lru && Inv(st, m) && InLoadOrder(m) && off < st.size && forall n :: Answers(st, ask(n))
    ensures var (r, _, outcome) := ReadLoop(st, m, ft, num, off, length, count, ask, read); !outcome.Dangling? ==> InLoadOrder(r)
    decreases count
  {
    hide Inv, ReadLoop, ReadChunk, InLoadOrder, Touch;
    if count == 0 {
      ReadLoopEnd(st, m, ft, num, off, length, ask, read);
    } else {
      ReadLoopTurn(st, m, ft, num, off, length, count, ask, read);
      var n := Min(st.size - off, length);
      var (m', chunk, outcome) := ReadChunk(st, m, Pid(ft, num), off, n, ask(num));
      ReadChunkLists(st, m, Pid(ft, num), off, n, ask(num));
      TouchOrder(st, m, Pid(ft, num), false, ask(num));
      if outcome.Done? { ReadOrder(st, m', ft, num + 1, 0, length - n, count - 1, ask, read + chunk); }
    }
  }

  lemma ReadChunkLists(st: Setup, m: Memory, p: Pid, off: nat, n: nat, answer: Answer)
    requires Inv(st, m) && Answers(st, answer) && off + n <= st.size
    ensures var (r, _, outcome) := ReadChunk(st, m, p, off, n, answer); (r, outcome) == Touch(st, m, p, false, answer)
  {
    hide Inv, Touch, FrameOf;
  }

  lemma ServeOrder(st: Setup, m: Memory, r: Request)
    requires st.policy == Lru && Inv(st, m) && InLoadOrder(m) && Sensible(st, r)
    ensures !Serve(st, m, r).1.Dangling? ==> InLoadOrder(Serve(st, m, r).0)
  {
    hide Inv, WriteLoop, ReadLoop, InLoadOrder, Turns;
    match r {
      case WriteAt(ft, base, content, ask) =>
        TransferStart(st, m, ft, base, content, 1, ask);
        WriteOrder(st, m, ft, PageOf(st, base), ByteOf(st, base), content, Turns(st, |content|), ask);
      case ReadAt(ft, base, length, ask) =>
        TransferStart(st, m, ft, base, [0], length, ask);
        ReadOrder(st, m, ft, PageOf(st, base), ByteOf(st, base), length, Turns(st, length), ask, []);
      case FlushOf(ft, upto) => SameOrder(m, CleanPages(m, ft, 0, upto));
    }
  }

  lemma {:induction false} RunOrder(st: Setup, m: Memory, rs: seq<Request>, m': Memory)
    requires st.policy == Lru && Inv(st, m) && InLoadOrder(m) && Reaches(st, m, rs, m')
    ensures Inv(st, m') && InLoadOrder(m')
    decreases |rs|
  {
    hide Inv, InLoadOrder, Serve, Sensible;
    if rs != [] {
      ServeInv(st, m, rs[0]);
      ServeOrder(st, m, rs[0]);
      RunOrder(st, Serve(st, m, rs[0]).0, rs[1..], m');
    }
  }

  /** In every reachable state under LRU, the next victim is the page in memory that was brought in longest ago. */
  lemma OldestIsEvicted(st: Setup, rs: seq<Request>, m: Memory, p: Pid)
    requires st.policy == Lru && st.Valid() && Inv(st, Empty(st)) && Reaches(st, Empty(st), rs, m)
    requires Shaped(st, m) && |m.loaded| == st.frames && p in m.pages && m.pages[p].present && p != NextVictim(st, m)
    ensures NextVictim(st, m) in m.history && p in m.history
    ensures LastLoad(m.history, NextVictim(st, m)) < LastLoad(m.history, p)
  {
    assert InLoadOrder(Empty(st));
    RunOrder(st, Empty(st), rs, m);
    LruEvictsHead(st, m);
    NotListed(st, m, p);
    hide Inv, Reaches, Shaped, LastLoad, NextVictim;
    var i :| 0 <= i < |m.loaded| && m.loaded[i] == p;
  }
}
