/** Transfers over pages that are not in memory: what is read, what is written and what a refusal answers. */
module Fetching {
  import opened Common
  import opened Clock
  import opened Memory
  import opened MemoryInvariant
  import opened MemoryAccess
  import opened FlatMemory
  import opened MemoryRuns
  import opened MemoryHazards

  // ------------------------------------------------------------------ one access

  /** A page just brought in holds, for a read, the block that was read; whatever else is in memory holds what it held. */
  lemma FilledContents(st: Setup, m: Memory, r: Memory, p: Pid, write: bool, data: Block)
    requires Inv(st, m) && BroughtIn(st, m, r, p, write) && |data| == st.size
    ensures Shaped(st, m) && Shaped(st, r) && Shaped(st, Filled(st, r, p, write, data))
    ensures var v, v' := View(st, m), View(st, Filled(st, r, p, write, data));
            && p in v'
            && v'[p] == (if write then FrameOf(st, m.bytes, r.pages[p].frame) else data)
            && forall q :: q in v' && q != p ==> q in v && v'[q] == v[q]
  {
    InvShaped(st, m);
    InvShaped(st, r);
    var filled := Filled(st, r, p, write, data);
    forall q | q in r.pages && r.pages[q].present && q != p ensures r.pages[q].frame != r.pages[p].frame {
      FramesDiffer(st, r, p, q);
    }
    hide Inv, FrameOf, Poke, Filled;
    FilledFrames(st, r, p, write, data);
  }

  lemma FilledFrames(st: Setup, r: Memory, p: Pid, write: bool, data: Block)
    requires Shaped(st, r) && p in r.pages && |data| == st.size
    ensures var filled := Filled(st, r, p, write, data);
            && filled.pages == r.pages
            && FrameOf(st, filled.bytes, r.pages[p].frame) == (if write then FrameOf(st, r.bytes, r.pages[p].frame) else data)
            && forall q :: q in r.pages && r.pages[q].frame != r.pages[p].frame ==>
                 FrameOf(st, filled.bytes, r.pages[q].frame) == FrameOf(st, r.bytes, r.pages[q].frame)
  {
    if !write {
      forall q | q in r.pages
        ensures FrameOf(st, Filled(st, r, p, write, data).bytes, r.pages[q].frame) ==
                if r.pages[q].frame == r.pages[p].frame then data else FrameOf(st, r.bytes, r.pages[q].frame)
      {
        PokeFrames(st, r.bytes, r.pages[p].frame, 0, data, r.pages[q].frame);
        WholeFrame(FrameOf(st, r.bytes, r.pages[q].frame), data);
      }
    }
  }

  lemma WholeFrame(before: Block, data: Block)
    requires |data| == |before|
    ensures before[..0] + data + before[0 + |data|..] == data
  {
  }

  /**
   What an access leaves in memory. On a hit every page holds what it held. On a
   miss a read finds the block the storage answered, a write what the frame held,
   and every other page still in memory holds what it held.
   */
  lemma TouchContents(st: Setup, m: Memory, p: Pid, write: bool, answer: Answer)
    requires Inv(st, m) && Answers(st, answer) && Touch(st, m, p, write, answer).1.Done?
    ensures Shaped(st, m) && Shaped(st, Touch(st, m, p, write, answer).0)
    ensures var r := Touch(st, m, p, write, answer).0; var v, v' := View(st, m), View(st, r);
            && p in v' && p in r.pages
            && (forall q :: q in v' && q != p ==> q in v && v'[q] == v[q])
            && (if p in v then v' == v
                else answer.Loaded? && v'[p] == if write then FrameOf(st, m.bytes, r.pages[p].frame) else answer.data)
  {
    if p in m.pages && m.pages[p].present {
      HitContents(st, m, p, write);
      TouchHit(st, m, p, write, answer);
    } else {
      MissContents(st, m, p, write, answer);
    }
    hide Touch, Inv, Shaped, FrameOf;
  }

  /** A hit sets the modified flag of its page to the access, even back to clean, and changes nothing else of memory: not the use bit, not the list. */
  lemma HitOnlyFlags(st: Setup, m: Memory, p: Pid, write: bool, answer: Answer)
    requires Inv(st, m) && Answers(st, answer) && p in m.pages && m.pages[p].present
    ensures var (r, outcome) := Touch(st, m, p, write, answer);
            && outcome.Done? && r == m.(pages := r.pages) && r.pages.Keys == m.pages.Keys
            && r.pages[p] == Page(m.pages[p].frame, true, m.pages[p].used, write)
            && forall q :: q in m.pages && q != p ==> r.pages[q] == m.pages[q]
  {
    TouchHit(st, m, p, write, answer);
    hide Touch, Inv;
  }

  lemma HitContents(st: Setup, m: Memory, p: Pid, write: bool)
    requires Inv(st, m) && p in m.pages && m.pages[p].present
    ensures Shaped(st, m) && Shaped(st, Flagged(m, p, write)) && View(st, Flagged(m, p, write)) == View(st, m)
    ensures p in View(st, m) && p in Flagged(m, p, write).pages
  {
    InvShaped(st, m);
    HitInv(st, m, p, write);
    InvShaped(st, Flagged(m, p, write));
    hide Inv, Shaped;
    FlaggedView(st, m, Flagged(m, p, write));
  }

  lemma MissContents(st: Setup, m: Memory, p: Pid, write: bool, answer: Answer)
    requires Inv(st, m) && Answers(st, answer) && Touch(st, m, p, write, answer).1.Done? && !(p in m.pages && m.pages[p].present)
    ensures Shaped(st, m) && Shaped(st, Touch(st, m, p, write, answer).0) && answer.Loaded?
    ensures var r := Touch(st, m, p, write, answer).0; var v, v' := View(st, m), View(st, r);
            && p in v' && p in r.pages && p !in v
            && v'[p] == (if write then FrameOf(st, m.bytes, r.pages[p].frame) else answer.data)
            && forall q :: q in v' && q != p ==> q in v && v'[q] == v[q]
  {
    InvShaped(st, m);
    assert answer.Loaded?;
    if p in m.pages {
      LoadAbsentBringsIn(st, m, p, write);
      var r := LoadAbsent(st, m, p, write);
      FilledContents(st, m, r, p, write, answer.data);
      assert Touch(st, m, p, write, answer).0 == Filled(st, r, p, write, answer.data);
    } else {
      LoadNewBringsIn(st, m, p, write);
      var r := LoadNew(st, m, p, write).value;
      FilledContents(st, m, r, p, write, answer.data);
      assert Touch(st, m, p, write, answer).0 == Filled(st, r, p, write, answer.data);
    }
    hide LoadAbsent, LoadNew, Inv, Shaped, FrameOf, Touch;
  }

  // ------------------------------------------------------------------ READ

  /** One turn of the READ loop: the page is in memory and the chunk is what it holds. */
  lemma ReadChunkContents(st: Setup, m: Memory, p: Pid, off: nat, n: nat, answer: Answer)
    requires Inv(st, m) && Answers(st, answer) && off + n <= st.size && ReadChunk(st, m, p, off, n, answer).2.Done?
    ensures Shaped(st, m) && Shaped(st, ReadChunk(st, m, p, off, n, answer).0)
    ensures var (r, chunk, _) := ReadChunk(st, m, p, off, n, answer); var v, v' := View(st, m), View(st, r);
            && p in v' && |v'[p]| == st.size && chunk == v'[p][off..off + n]
            && (if p in v then v'[p] == v[p] else answer == Loaded(v'[p]))
            && forall q :: q in v' && q != p ==> q in v && v'[q] == v[q]
  {
    TouchContents(st, m, p, false, answer);
    hide Touch, Inv, FrameOf, Shaped;
  }

  /** What a page holds when its turn comes: what it held before the READ if it is then in memory, and else what the storage answers. */
  ghost predicate SeenAs(st: Setup, m: Memory, s: Memory, p: Pid, answer: Answer, block: Block)
    requires Shaped(st, m) && Shaped(st, s)
  {
    if p in View(st, s) then p in View(st, m) && View(st, m)[p] == block else answer == Loaded(block)
  }

  /** `v` holds, for the page of turn `i`, what it is seen as in the state that the turns before it reach. */
  ghost predicate TurnSees(st: Setup, m: Memory, ft: FileTag, num: nat, off: nat, length: nat, ask: nat -> Answer, read: seq<byte>,
                           v: map<Pid, Block>, i: nat)
    requires Inv(st, m) && off < st.size && forall n :: Answers(st, ask(n))
  {
    var (s, _, outcome) := ReadLoop(st, m, ft, num, off, length, i, ask, read);
    && outcome.Done? && Shaped(st, m) && Shaped(st, s) && Pid(ft, num + i) in v
    && SeenAs(st, m, s, Pid(ft, num + i), ask(num + i), v[Pid(ft, num + i)])
  }

  /** `v` is about the pages that the turns visit. */
  ghost predicate Visits(size: nat, v: map<Pid, Block>, ft: FileTag, num: nat, count: nat) {
    && (forall q :: q in v <==> q.owner == ft && num <= q.num < num + count)
    && forall q :: q in v ==> |v[q]| == size
  }

  /** After the READ a page in memory holds what was seen of it, or, when it was not visited, what it held. */
  ghost predicate Leaves(before: map<Pid, Block>, after: map<Pid, Block>, v: map<Pid, Block>) {
    forall q :: q in after ==> if q in v then after[q] == v[q] else q in before && after[q] == before[q]
  }

  lemma VisitsFirst(size: nat, v: map<Pid, Block>, ft: FileTag, num: nat, count: nat, block: Block)
    requires Visits(size, v, ft, num + 1, count) && |block| == size
    ensures Visits(size, v[Pid(ft, num) := block], ft, num, count + 1)
  {
    forall q: Pid | q.owner == ft && q.num == num ensures q == Pid(ft, num) {
    }
  }

  lemma GatheredWith(size: nat, v: map<Pid, Block>, ft: FileTag, num: nat, count: nat, block: Block, out: seq<byte>, moved: nat)
    requires Visits(size, v, ft, num + 1, count) && |block| == size && Gathered(size, v, ft, num + 1, 0, out, moved)
    ensures Gathered(size, v[Pid(ft, num) := block], ft, num + 1, 0, out, moved)
  {
    var w := v[Pid(ft, num) := block];
    forall q, j: nat | q in w && q.owner == ft && j < size
      ensures var at := Reach(size, num + 1, 0, q.num, j); 0 <= at < moved ==> out[at] == w[q][j]
    {
      if q.num == num { ReachFacts(size, num + 1, 0, num, j); } else { assert q != Pid(ft, num); }
    }
  }

  /** Leaving on from the first turn: nothing visits its page again. */
  lemma LeavesOn(v0: map<Pid, Block>, v1: map<Pid, Block>, v2: map<Pid, Block>, v: map<Pid, Block>, p: Pid)
    requires p in v1 && p !in v && Leaves(v1, v2, v)
    requires forall q :: q in v1 && q != p ==> q in v0 && v1[q] == v0[q]
    ensures Leaves(v0, v2, v[p := v1[p]])
  {
  }

  lemma SeenOn(st: Setup, m: Memory, next: Memory, s: Memory, p: Pid, q: Pid, answer: Answer, block: Block)
    requires Shaped(st, m) && Shaped(st, next) && Shaped(st, s) && q != p
    requires forall x :: x in View(st, next) && x != p ==> x in View(st, m) && View(st, next)[x] == View(st, m)[x]
    requires SeenAs(st, next, s, q, answer, block)
    ensures SeenAs(st, m, s, q, answer, block)
  {
    hide View;
  }

  lemma TurnSeesOn(st: Setup, m: Memory, ft: FileTag, num: nat, off: nat, n: nat, length: nat, ask: nat -> Answer, read: seq<byte>,
                   next: Memory, chunk: seq<byte>, v: map<Pid, Block>, block: Block, i: nat)
    requires Inv(st, m) && off < st.size && (forall k :: Answers(st, ask(k))) && Inv(st, next)
    requires n == Min(st.size - off, length) && n <= length && off + n <= st.size
    requires ReadChunk(st, m, Pid(ft, num), off, n, ask(num)) == (next, chunk, Done)
    requires TurnSees(st, next, ft, num + 1, 0, length - n, ask, read + chunk, v, i)
    ensures TurnSees(st, m, ft, num, off, length, ask, read, v[Pid(ft, num) := block], i + 1)
  {
    hide *;
    InvShaped(st, m);
    var q := Pid(ft, num + (i + 1));
    ReadLoopTurn(st, m, ft, num, off, length, i + 1, ask, read);
    ReadChunkContents(st, m, Pid(ft, num), off, n, ask(num));
    var s, out := TurnSeesMeans(st, next, ft, num + 1, 0, length - n, ask, read + chunk, v, i);
    assert num + 1 + i == num + (i + 1);
    SeenOn(st, m, next, s, Pid(ft, num), q, ask(num + (i + 1)), v[q]);
    TurnSeesIf(st, m, ft, num, off, length, ask, read, v[Pid(ft, num) := block], i + 1, s, out);
  }

  lemma TurnSeesMeans(st: Setup, m: Memory, ft: FileTag, num: nat, off: nat, length: nat, ask: nat -> Answer, read: seq<byte>, v: map<Pid, Block>, i: nat)
    returns (s: Memory, out: seq<byte>)
    requires Inv(st, m) && off < st.size && (forall n :: Answers(st, ask(n))) && TurnSees(st, m, ft, num, off, length, ask, read, v, i)
    ensures ReadLoop(st, m, ft, num, off, length, i, ask, read) == (s, out, Done) && Shaped(st, m) && Shaped(st, s) && Pid(ft, num + i) in v
    ensures SeenAs(st, m, s, Pid(ft, num + i), ask(num + i), v[Pid(ft, num + i)])
  {
    s, out := ReadLoop(st, m, ft, num, off, length, i, ask, read).0, ReadLoop(st, m, ft, num, off, length, i, ask, read).1;
    hide Inv, ReadLoop, SeenAs, Shaped;
  }

  lemma TurnSeesIf(st: Setup, m: Memory, ft: FileTag, num: nat, off: nat, length: nat, ask: nat -> Answer, read: seq<byte>, v: map<Pid, Block>, i: nat,
                   s: Memory, out: seq<byte>)
    requires Inv(st, m) && off < st.size && forall n :: Answers(st, ask(n))
    requires ReadLoop(st, m, ft, num, off, length, i, ask, read) == (s, out, Done) && Shaped(st, m) && Shaped(st, s) && Pid(ft, num + i) in v
    requires SeenAs(st, m, s, Pid(ft, num + i), ask(num + i), v[Pid(ft, num + i)])
    ensures TurnSees(st, m, ft, num, off, length, ask, read, v, i)
  {
    hide Inv, ReadLoop, SeenAs, Shaped;
  }

  lemma TurnSeesFirst(st: Setup, m: Memory, ft: FileTag, num: nat, off: nat, n: nat, length: nat, ask: nat -> Answer, read: seq<byte>,
                      next: Memory, chunk: seq<byte>, v: map<Pid, Block>)
    requires Inv(st, m) && off < st.size && (forall k :: Answers(st, ask(k))) && Inv(st, next)
    requires n == Min(st.size - off, length) && off + n <= st.size
    requires ReadChunk(st, m, Pid(ft, num), off, n, ask(num)) == (next, chunk, Done)
    ensures Shaped(st, next) && Pid(ft, num) in View(st, next) && |View(st, next)[Pid(ft, num)]| == st.size
    ensures TurnSees(st, m, ft, num, off, length, ask, read, v[Pid(ft, num) := View(st, next)[Pid(ft, num)]], 0)
  {
    ReadLoopEnd(st, m, ft, num, off, length, ask, read);
    ReadChunkContents(st, m, Pid(ft, num), off, n, ask(num));
    hide Inv, ReadLoop, ReadChunk, Shaped, View;
  }

  /** A READ loop that runs to the end, page after page: what is seen of each, gathered, and what is left in memory. */
  lemma {:induction false} ReadOver(st: Setup, m: Memory, ft: FileTag, num: nat, off: nat, length: nat, count: nat, ask: nat -> Answer, read: seq<byte>)
    returns (r: Memory, out: seq<byte>, v: map<Pid, Block>)
    requires Inv(st, m) && off < st.size && forall n :: Answers(st, ask(n))
    requires ReadLoop(st, m, ft, num, off, length, count, ask, read).2.Done?
    ensures ReadLoop(st, m, ft, num, off, length, count, ask, read) == (r, read + out, Done) && Shaped(st, m) && Shaped(st, r)
    ensures Visits(st.size, v, ft, num, count) && Gathered(st.size, v, ft, num, off, out, Moved(st.size, off, length, count))
    ensures forall i: nat :: i < count ==> TurnSees(st, m, ft, num, off, length, ask, read, v, i)
    ensures Leaves(View(st, m), View(st, r), v)
    decreases count
  {
    hide *;
    InvShaped(st, m);
    if count == 0 {
      r, out, v := m, [], map[];
      NothingRead(st, m, ft, num, off, length, ask, read);
    } else {
      var p := Pid(ft, num);
      var n := Min(st.size - off, length);
      ReadLoopTurn(st, m, ft, num, off, length, count, ask, read);
      var (next, chunk, outcome) := ReadChunk(st, m, p, off, n, ask(num));
      assert outcome.Done?;
      ReadChunkContents(st, m, p, off, n, ask(num));
      var rest, later;
      r, rest, later := ReadOver(st, next, ft, num + 1, 0, length - n, count - 1, ask, read + chunk);
      var block := View(st, next)[p];
      v := later[p := block];
      out := chunk + rest;
      VisitsFirst(st.size, later, ft, num, count - 1, block);
      VisitsNot(st.size, later, ft, num, count - 1);
      GatheredWith(st.size, later, ft, num, count - 1, block, rest, Moved(st.size, 0, length - n, count - 1));
      VisitsSizes(st.size, v, ft, num, count);
      GatherOn(st.size, v, ft, num, off, n, length, count, chunk, rest);
      LeavesOn(View(st, m), View(st, next), View(st, r), later, p);
      TurnSeesFirst(st, m, ft, num, off, n, length, ask, read, next, chunk, later);
      forall i: nat | i < count ensures TurnSees(st, m, ft, num, off, length, ask, read, v, i) {
        if i > 0 { TurnSeesOn(st, m, ft, num, off, n, length, ask, read, next, chunk, later, block, i - 1); }
      }
      assert (read + chunk) + rest == read + out;
    }
  }

  lemma VisitsNot(size: nat, v: map<Pid, Block>, ft: FileTag, num: nat, count: nat)
    requires Visits(size, v, ft, num + 1, count)
    ensures Pid(ft, num) !in v
  {
  }

  lemma VisitsSizes(size: nat, v: map<Pid, Block>, ft: FileTag, num: nat, count: nat)
    requires Visits(size, v, ft, num, count)
    ensures forall q :: q in v ==> |v[q]| == size
  {
  }

  lemma NothingRead(st: Setup, m: Memory, ft: FileTag, num: nat, off: nat, length: nat, ask: nat -> Answer, read: seq<byte>)
    requires Inv(st, m) && off < st.size && (forall n :: Answers(st, ask(n))) && Shaped(st, m)
    ensures ReadLoop(st, m, ft, num, off, length, 0, ask, read) == (m, read + [], Done)
    ensures Visits(st.size, map[], ft, num, 0) && Gathered(st.size, map[], ft, num, off, [], Moved(st.size, off, length, 0))
    ensures Leaves(View(st, m), View(st, m), map[])
  {
    assert read + [] == read;
    hide Inv, View, Reach;
  }

  /**
   A READ that succeeds, whatever is in memory: the bytes at base, base+1, ... of what
   its pages are seen as, each in its turn; and what it leaves in memory.
   */
  lemma ReadFetches(st: Setup, m: Memory, ft: FileTag, base: nat, length: nat, ask: nat -> Answer)
    returns (r: Memory, out: seq<byte>, v: map<Pid, Block>)
    requires Inv(st, m) && length > 0 && (forall n :: Answers(st, ask(n))) && ReadMemory(st, m, ft, base, length, ask).2.Done?
    ensures ReadMemory(st, m, ft, base, length, ask) == (r, out, Done) && Shaped(st, m) && Shaped(st, r)
    ensures |out| == Transferred(st, base, length) && forall k :: 0 <= k < |out| ==> Flat(st, v, ft, base + k, out[k])
    ensures Visits(st.size, v, ft, PageOf(st, base), Turns(st, length))
    ensures forall i: nat :: i < Turns(st, length) ==> TurnSees(st, m, ft, PageOf(st, base), ByteOf(st, base), length, ask, [], v, i)
    ensures Leaves(View(st, m), View(st, r), v)
  {
    hide *;
    TransferStart(st, m, ft, base, [0], length, ask);
    r, out, v := ReadOver(st, m, ft, PageOf(st, base), ByteOf(st, base), length, Turns(st, length), ask, []);
    assert [] + out == out;
    AllVisited(st, v, ft, base, length);
    TransferredMoved(st, base, length);
    GatheredLength(st.size, v, ft, PageOf(st, base), ByteOf(st, base), out, Transferred(st, base, length));
    FlatGathered(st, v, ft, base, length, out);
  }

  lemma GatheredLength(size: nat, v: map<Pid, Block>, ft: FileTag, num: nat, off: nat, out: seq<byte>, moved: nat)
    requires Gathered(size, v, ft, num, off, out, moved)
    ensures |out| == moved
  {
  }

  lemma TransferredMoved(st: Setup, base: nat, length: nat)
    requires st.Valid()
    ensures Transferred(st, base, length) == Moved(st.size, ByteOf(st, base), length, Turns(st, length))
  {
  }

  lemma AllVisited(st: Setup, v: map<Pid, Block>, ft: FileTag, base: nat, length: nat)
    requires st.Valid() && Visits(st.size, v, ft, PageOf(st, base), Turns(st, length))
    ensures forall k: nat :: PageOf(st, base) <= k < PageOf(st, base) + Turns(st, length) ==> Pid(ft, k) in v
  {
    hide PageOf, Turns;
  }

  // ------------------------------------------------------------------ READ with free frames

  lemma AbsentKeeps(st: Setup, m: Memory, p: Pid, write: bool)
    requires Inv(st, m) && p in m.pages && !m.pages[p].present && FindFree(m.bitmap, 0).Some?
    ensures var r := LoadAbsent(st, m, p, write);
            forall q :: q in m.pages && m.pages[q].present ==> q in r.pages && r.pages[q].present
  {
    AbsentReady(st, m, p, write);
    var (a, f) := AssignFrame(st, Marked(m, p, write));
    assert a == Marked(m, p, write);
    RegisterTidy(st, Placed(a, p, f), p, f);
    assert LoadAbsent(st, m, p, write).pages == Placed(a, p, f).pages;
    hide LoadAbsent, Inv, AssignFrame;
  }

  /** With a free frame an access sends nothing away. */
  lemma FreeFrameKeeps(st: Setup, m: Memory, p: Pid, write: bool, answer: Answer)
    requires Inv(st, m) && Answers(st, answer) && Touch(st, m, p, write, answer).1.Done? && |m.loaded| < st.frames
    ensures Shaped(st, m) && Shaped(st, Touch(st, m, p, write, answer).0)
    ensures forall q :: q in View(st, m) ==> q in View(st, Touch(st, m, p, write, answer).0)
    ensures |Touch(st, m, p, write, answer).0.loaded| <= |m.loaded| + 1
  {
    InvShaped(st, m);
    TouchInv(st, m, p, write, answer);
    InvShaped(st, Touch(st, m, p, write, answer).0);
    hide *;
    TouchGrowth(st, m, p, write, answer);
    PresentStay(st, m, p, write, answer);
    ViewMore(st, m, Touch(st, m, p, write, answer).0);
  }

  lemma TouchInv(st: Setup, m: Memory, p: Pid, write: bool, answer: Answer)
    requires Inv(st, m) && Answers(st, answer) && Touch(st, m, p, write, answer).1.Done?
    ensures Inv(st, Touch(st, m, p, write, answer).0)
  {
  }

  lemma ViewMore(st: Setup, m: Memory, r: Memory)
    requires Shaped(st, m) && Shaped(st, r)
    requires forall q :: q in m.pages && m.pages[q].present ==> q in r.pages && r.pages[q].present
    ensures forall q :: q in View(st, m) ==> q in View(st, r)
  {
    hide Shaped, FrameOf;
  }

  lemma PresentStay(st: Setup, m: Memory, p: Pid, write: bool, answer: Answer)
    requires Inv(st, m) && Answers(st, answer) && Touch(st, m, p, write, answer).1.Done? && |m.loaded| < st.frames
    ensures var r := Touch(st, m, p, write, answer).0;
            forall q :: q in m.pages && m.pages[q].present ==> q in r.pages && r.pages[q].present
  {
    InvShaped(st, m);
    FullWhenNoneFree(st, m, {});
    if p in m.pages && m.pages[p].present {
      TouchHit(st, m, p, write, answer);
      hide Touch, Inv, Shaped;
    } else if p in m.pages {
      AbsentKeeps(st, m, p, write);
      hide LoadAbsent, Inv, Shaped, FindFree;
    } else {
      NewKeeps(st, m, p, write);
      hide LoadNew, Inv, Shaped, FindFree;
    }
  }

  lemma NewKeeps(st: Setup, m: Memory, p: Pid, write: bool)
    requires Inv(st, m) && p !in m.pages && FindFree(m.bitmap, 0).Some?
    ensures LoadNew(st, m, p, write).Some?
    ensures var r := LoadNew(st, m, p, write).value;
            forall q :: q in m.pages && m.pages[q].present ==> q in r.pages && r.pages[q].present
  {
    FreshLoad(st, m, p, FindFree(m.bitmap, 0).value, write);
    hide LoadNew, Inv;
  }

  lemma {:induction false} ReadKeeps(st: Setup, m: Memory, ft: FileTag, num: nat, off: nat, length: nat, count: nat, ask: nat -> Answer, read: seq<byte>)
    requires Inv(st, m) && off < st.size && (forall n :: Answers(st, ask(n))) && |m.loaded| + count <= st.frames
    requires ReadLoop(st, m, ft, num, off, length, count, ask, read).2.Done?
    ensures Shaped(st, m) && Shaped(st, ReadLoop(st, m, ft, num, off, length, count, ask, read).0)
    ensures forall q :: q in View(st, m) ==> q in View(st, ReadLoop(st, m, ft, num, off, length, count, ask, read).0)
    decreases count
  {
    hide *;
    InvShaped(st, m);
    if count == 0 {
      ReadLoopEnd(st, m, ft, num, off, length, ask, read);
    } else {
      var n := Min(st.size - off, length);
      ReadLoopTurn(st, m, ft, num, off, length, count, ask, read);
      var (next, chunk, outcome) := ReadChunk(st, m, Pid(ft, num), off, n, ask(num));
      ReadChunkTouches(st, m, Pid(ft, num), off, n, ask(num));
      FreeFrameKeeps(st, m, Pid(ft, num), false, ask(num));
      ReadKeeps(st, next, ft, num + 1, 0, length - n, count - 1, ask, read + chunk);
    }
  }

  /** With a free frame for each of its pages, a READ sees a page in memory as it is, and any other as the storage answers it. */
  lemma FreeFramesSee(st: Setup, m: Memory, ft: FileTag, num: nat, off: nat, length: nat, count: nat, ask: nat -> Answer, read: seq<byte>,
                      v: map<Pid, Block>, i: nat)
    requires Inv(st, m) && off < st.size && (forall n :: Answers(st, ask(n))) && |m.loaded| + count <= st.frames && i < count
    requires TurnSees(st, m, ft, num, off, length, ask, read, v, i)
    ensures Shaped(st, m) && Pid(ft, num + i) in v
    ensures var p := Pid(ft, num + i);
            if p in View(st, m) then v[p] == View(st, m)[p] else ask(num + i) == Loaded(v[p])
  {
    var s, out := TurnSeesMeans(st, m, ft, num, off, length, ask, read, v, i);
    hide Inv, ReadLoop, View, Shaped, TurnSees;
    ReadKeeps(st, m, ft, num, off, length, i, ask, read);
  }

  // ------------------------------------------------------------------ WRITE

  /**
   One turn of the WRITE loop: the chunk lands in its page, the rest of the page is
   what it held, or, when it was not in memory, what its frame held: the old block
   is not copied. Other pages still in memory hold what they held.
   */
  lemma WriteChunkContents(st: Setup, m: Memory, p: Pid, off: nat, data: seq<byte>, answer: Answer)
    requires Inv(st, m) && Answers(st, answer) && off + |data| <= st.size && WriteChunk(st, m, p, off, data, answer).1.Done?
    ensures Shaped(st, m) && Shaped(st, WriteChunk(st, m, p, off, data, answer).0)
    ensures var r := WriteChunk(st, m, p, off, data, answer).0; var v, v' := View(st, m), View(st, r);
            && p in v' && p in r.pages
            && (var base := if p in v then v[p] else FrameOf(st, m.bytes, r.pages[p].frame);
                v'[p] == base[..off] + data + base[off + |data|..])
            && forall q :: q in v' && q != p ==> q in v && v'[q] == v[q]
  {
    hide *;
    var m', r := Touch(st, m, p, true, answer).0, WriteChunk(st, m, p, off, data, answer).0;
    WriteChunkIs(st, m, p, off, data, answer);
    TouchContents(st, m, p, true, answer);
    PokeView(st, m', r, p, off, data);
    assert m'.pages[p].frame == r.pages[p].frame;
  }

  /** The turn is the access and then the copy into the frame of the page, which is nobody else's. */
  lemma WriteChunkIs(st: Setup, m: Memory, p: Pid, off: nat, data: seq<byte>, answer: Answer)
    requires Inv(st, m) && Answers(st, answer) && off + |data| <= st.size && WriteChunk(st, m, p, off, data, answer).1.Done?
    ensures Touch(st, m, p, true, answer).1.Done?
    ensures var m', r := Touch(st, m, p, true, answer).0, WriteChunk(st, m, p, off, data, answer).0;
            && Shaped(st, m') && Shaped(st, r) && p in m'.pages && m'.pages[p].present && r.pages == m'.pages
            && r.bytes == Poke(st, m'.bytes, m'.pages[p].frame, off, data)
            && forall q :: q in m'.pages && m'.pages[q].present && q != p ==> m'.pages[q].frame != m'.pages[p].frame
  {
    var m', r := Touch(st, m, p, true, answer).0, WriteChunk(st, m, p, off, data, answer).0;
    InvShaped(st, m');
    InvShaped(st, r);
    forall q | q in m'.pages && m'.pages[q].present && q != p ensures m'.pages[q].frame != m'.pages[p].frame {
      FramesDiffer(st, m', p, q);
    }
    hide Touch, Inv, FrameOf, Poke, Shaped;
  }

  /** Whatever pages of `ft` are in memory hold the bytes of `content` that fall in them, laid out from byte `off` of page `num` on. */
  ghost predicate Landed(size: nat, v: map<Pid, Block>, ft: FileTag, num: nat, off: nat, content: seq<byte>, moved: nat) {
    && moved <= |content|
    && forall q :: q in v && q.owner == ft ==>
         && |v[q]| == size
         && forall j: nat :: j < size ==>
              var at := Reach(size, num, off, q.num, j);
              0 <= at < moved ==> v[q][j] == content[at]
  }

  /** A page in memory that was not visited was there before, and holds what it held. */
  ghost predicate Untouched(before: map<Pid, Block>, after: map<Pid, Block>, ft: FileTag, num: nat, count: nat) {
    forall q :: q in after && !(q.owner == ft && num <= q.num < num + count) ==> q in before && after[q] == before[q]
  }

  lemma LandedAt(size: nat, v1: map<Pid, Block>, v2: map<Pid, Block>, p: Pid, off: nat, content: seq<byte>, n: nat, more: nat, count: nat, q: Pid, j: nat)
    requires off < size && n == (if size - off < |content| then size - off else |content|) && more <= |content| - n
    requires p in v1 && |v1[p]| == size && v1[p][off..off + n] == content[..n] && Untouched(v1, v2, p.owner, p.num + 1, count)
    requires Landed(size, v2, p.owner, p.num + 1, 0, content[n..], more)
    requires q in v2 && q.owner == p.owner && j < size
    ensures |v2[q]| == size
    ensures var at := Reach(size, p.num, off, q.num, j); 0 <= at < n + more ==> v2[q][j] == content[at]
  {
    ReachFacts(size, p.num, off, q.num, j);
    var at := Reach(size, p.num + 1, 0, q.num, j);
    hide Reach;
    assert 0 <= at < more ==> v2[q][j] == content[n..][at];
    if q.num == p.num {
      assert q == p by { assert q == Pid(q.owner, q.num) && p == Pid(p.owner, p.num); }
      assert v2[q] == v1[p];
      if off <= j < off + n { assert v1[p][off..off + n][j - off] == content[..n][j - off]; }
    }
  }

  lemma LandedOn(size: nat, v1: map<Pid, Block>, v2: map<Pid, Block>, p: Pid, off: nat, content: seq<byte>, n: nat, count: nat)
    requires off < size && count > 0 && n == Min(size - off, |content|)
    requires p in v1 && |v1[p]| == size && v1[p][off..off + n] == content[..n] && Untouched(v1, v2, p.owner, p.num + 1, count - 1)
    requires Landed(size, v2, p.owner, p.num + 1, 0, content[n..], Moved(size, 0, |content[n..]|, count - 1))
    ensures Landed(size, v2, p.owner, p.num, off, content, Moved(size, off, |content|, count))
  {
    var more := Moved(size, 0, |content[n..]|, count - 1);
    assert Moved(size, off, |content|, count) == n + more;
    hide Moved, Untouched;
    forall q, j: nat | q in v2 && q.owner == p.owner && j < size
      ensures |v2[q]| == size
      ensures var at := Reach(size, p.num, off, q.num, j); 0 <= at < n + more ==> v2[q][j] == content[at]
    {
      LandedAt(size, v1, v2, p, off, content, n, more, count - 1, q, j);
    }
    assert forall q :: q in v2 && q.owner == p.owner ==> |v2[q]| == size;
    hide Landed, Reach;
  }

  lemma UntouchedOn(v0: map<Pid, Block>, v1: map<Pid, Block>, v2: map<Pid, Block>, p: Pid, count: nat)
    requires forall q :: q in v1 && q != p ==> q in v0 && v1[q] == v0[q]
    requires count > 0 && Untouched(v1, v2, p.owner, p.num + 1, count - 1)
    ensures Untouched(v0, v2, p.owner, p.num, count)
  {
  }

  lemma ChunkInPlace(base: Block, off: nat, data: seq<byte>)
    requires off + |data| <= |base|
    ensures var b := base[..off] + data + base[off + |data|..]; |b| == |base| && b[off..off + |data|] == data
  {
  }

  /** One turn, seen from the whole WRITE. */
  lemma WriteStart(st: Setup, m: Memory, p: Pid, off: nat, data: seq<byte>, answer: Answer)
    requires Inv(st, m) && Answers(st, answer) && off + |data| <= st.size && WriteChunk(st, m, p, off, data, answer).1.Done?
    ensures Shaped(st, m) && Shaped(st, WriteChunk(st, m, p, off, data, answer).0)
    ensures var r := WriteChunk(st, m, p, off, data, answer).0; var v, v' := View(st, m), View(st, r);
            && p in v' && |v'[p]| == st.size && v'[p][off..off + |data|] == data
            && forall q :: q in v' && q != p ==> q in v && v'[q] == v[q]
  {
    WriteChunkContents(st, m, p, off, data, answer);
    var r := WriteChunk(st, m, p, off, data, answer).0;
    ChunkInPlace(if p in View(st, m) then View(st, m)[p] else FrameOf(st, m.bytes, r.pages[p].frame), off, data);
    hide WriteChunk, Inv, Shaped, FrameOf;
  }

  /** A WRITE loop that runs to the end, whatever is in memory. */
  lemma {:induction false} WriteOver(st: Setup, m: Memory, ft: FileTag, num: nat, off: nat, content: seq<byte>, count: nat, ask: nat -> Answer)
    returns (r: Memory)
    requires Inv(st, m) && off < st.size && forall n :: Answers(st, ask(n))
    requires WriteLoop(st, m, ft, num, off, content, count, ask).1.Done?
    ensures WriteLoop(st, m, ft, num, off, content, count, ask) == (r, Done) && Shaped(st, m) && Shaped(st, r)
    ensures Landed(st.size, View(st, r), ft, num, off, content, Moved(st.size, off, |content|, count))
    ensures Untouched(View(st, m), View(st, r), ft, num, count)
    decreases count
  {
    hide *;
    InvShaped(st, m);
    if count == 0 {
      r := m;
      WriteLoopEnd(st, m, ft, num, off, content, ask);
      NothingWritten(st, m, ft, num, off, content);
    } else {
      var p := Pid(ft, num);
      var n := Min(st.size - off, |content|);
      WriteLoopTurn(st, m, ft, num, off, content, count, ask);
      var (next, outcome) := WriteChunk(st, m, p, off, content[..n], ask(num));
      WriteStart(st, m, p, off, content[..n], ask(num));
      r := WriteOver(st, next, ft, num + 1, 0, content[n..], count - 1, ask);
      LandedOn(st.size, View(st, next), View(st, r), p, off, content, n, count);
      UntouchedOn(View(st, m), View(st, next), View(st, r), p, count);
    }
  }

  lemma NothingWritten(st: Setup, m: Memory, ft: FileTag, num: nat, off: nat, content: seq<byte>)
    requires Shaped(st, m) && off < st.size
    ensures Landed(st.size, View(st, m), ft, num, off, content, Moved(st.size, off, |content|, 0))
    ensures Untouched(View(st, m), View(st, m), ft, num, 0)
  {
    hide Reach, Shaped;
  }

  /**
   A WRITE that succeeds, whatever is in memory: wherever an address it covers is in
   memory afterwards, it holds its byte of the content, and pages it does not visit
   hold what they held.
   */
  lemma WriteLands(st: Setup, m: Memory, ft: FileTag, base: nat, content: seq<byte>, ask: nat -> Answer) returns (r: Memory)
    requires Inv(st, m) && |content| > 0 && (forall n :: Answers(st, ask(n))) && WriteMemory(st, m, ft, base, content, ask).1.Done?
    ensures WriteMemory(st, m, ft, base, content, ask) == (r, Done) && Shaped(st, m) && Shaped(st, r)
    ensures Untouched(View(st, m), View(st, r), ft, PageOf(st, base), Turns(st, |content|))
    ensures forall address: nat, b: byte ::
              base <= address < base + Transferred(st, base, |content|) && address - base < |content| && Flat(st, View(st, r), ft, address, b)
              ==> b == content[address - base]
  {
    hide *;
    TransferStart(st, m, ft, base, content, 1, ask);
    r := WriteOver(st, m, ft, PageOf(st, base), ByteOf(st, base), content, Turns(st, |content|), ask);
    TransferredMoved(st, base, |content|);
    forall address: nat, b: byte
      | base <= address < base + Transferred(st, base, |content|) && address - base < |content| && Flat(st, View(st, r), ft, address, b)
      ensures b == content[address - base]
    {
      LandedFlat(st, View(st, r), ft, base, content, address, b);
    }
  }

  lemma LandedFlat(st: Setup, v: map<Pid, Block>, ft: FileTag, base: nat, content: seq<byte>, address: nat, b: byte)
    requires st.Valid() && Landed(st.size, v, ft, PageOf(st, base), ByteOf(st, base), content, Transferred(st, base, |content|))
    requires base <= address < base + Transferred(st, base, |content|) && address - base < |content| && Flat(st, v, ft, address, b)
    ensures b == content[address - base]
  {
    ReachOfAddress(st, base, address);
    hide PageOf, ByteOf, Transferred, Reach;
  }
}
