/** WRITE and READ over pages, and the flat byte space they implement while the pages are resident. */
module FlatMemory {
  import opened Common
  import opened Memory
  import opened MemoryInvariant
  import opened MemoryAccess

  function Min(a: nat, b: nat): nat {
    if a < b then a else b
  }

  /** Turns of the transfer loops: the length in whole blocks, whatever the offset. */
  function Turns(st: Setup, length: nat): nat
    requires st.Valid()
  {
    (length + st.size - 1) / st.size
  }

  /** The page an address lies in. */
  function PageOf(st: Setup, address: nat): nat
    requires st.Valid()
  {
    address / st.size
  }

  /** Where in its page the address lies. */
  function ByteOf(st: Setup, address: nat): (j: nat)
    requires st.Valid()
    ensures j < st.size
  {
    address % st.size
  }

  lemma InvShaped(st: Setup, m: Memory)
    requires Inv(st, m)
    ensures Shaped(st, m)
  {
  }

  /** Makes a page resident for writing and copies `data` into it at `off`. */
  function WriteChunk(st: Setup, m: Memory, p: Pid, off: nat, data: seq<byte>, answer: Answer): (r: (Memory, Outcome))
    requires Inv(st, m) && Answers(st, answer) && off + |data| <= st.size
    ensures !r.1.Dangling? ==> Inv(st, r.0)
  {
    var (m', outcome) := Touch(st, m, p, true, answer);
    if !outcome.Done? then (m', outcome)
    else
      var bytes := Poke(st, m'.bytes, m'.pages[p].frame, off, data);
      BytesInv(st, m', bytes);
      (m'.(bytes := bytes), Done)
  }

  /** Makes a page resident for reading and returns `n` of its bytes from `off` on. */
  function ReadChunk(st: Setup, m: Memory, p: Pid, off: nat, n: nat, answer: Answer): (r: (Memory, seq<byte>, Outcome))
    requires Inv(st, m) && Answers(st, answer) && off + n <= st.size
    ensures !r.2.Dangling? ==> Inv(st, r.0)
  {
    var (m', outcome) := Touch(st, m, p, false, answer);
    if !outcome.Done? then (m', [], outcome)
    else (m', FrameOf(st, m'.bytes, m'.pages[p].frame)[off..off + n], Done)
  }

  /** Copies `content` to `count` pages from `num` on, starting at `off`; `ask(n)` is the storage's answer about block n. */
  function WriteLoop(st: Setup, m: Memory, ft: FileTag, num: nat, off: nat, content: seq<byte>, count: nat, ask: nat -> Answer): (r: (Memory, Outcome))
    requires Inv(st, m) && off < st.size && forall n :: Answers(st, ask(n))
    decreases count
  {
    if count == 0 then (m, Done)
    else
      var n := Min(st.size - off, |content|);
      var (m', outcome) := WriteChunk(st, m, Pid(ft, num), off, content[..n], ask(num));
      if !outcome.Done? then (m', outcome)
      else WriteLoop(st, m', ft, num + 1, 0, content[n..], count - 1, ask)
  }

  /** Reads `length` bytes from `count` pages, after the bytes `read` so far. */
  function ReadLoop(st: Setup, m: Memory, ft: FileTag, num: nat, off: nat, length: nat, count: nat, ask: nat -> Answer, read: seq<byte>): (r: (Memory, seq<byte>, Outcome))
    requires Inv(st, m) && off < st.size && forall n :: Answers(st, ask(n))
    decreases count
  {
    if count == 0 then (m, read, Done)
    else
      var n := Min(st.size - off, length);
      var (m', chunk, outcome) := ReadChunk(st, m, Pid(ft, num), off, n, ask(num));
      if !outcome.Done? then (m', read, outcome)
      else ReadLoop(st, m', ft, num + 1, 0, length - n, count - 1, ask, read + chunk)
  }

  function WriteMemory(st: Setup, m: Memory, ft: FileTag, base: nat, content: seq<byte>, ask: nat -> Answer): (r: (Memory, Outcome))
    requires Inv(st, m) && |content| > 0 && forall n :: Answers(st, ask(n))
  {
    WriteLoop(st, m, ft, PageOf(st, base), ByteOf(st, base), content, Turns(st, |content|), ask)
  }

  function ReadMemory(st: Setup, m: Memory, ft: FileTag, base: nat, length: nat, ask: nat -> Answer): (r: (Memory, seq<byte>, Outcome))
    requires Inv(st, m) && length > 0 && forall n :: Answers(st, ask(n))
  {
    ReadLoop(st, m, ft, PageOf(st, base), ByteOf(st, base), length, Turns(st, length), ask, [])
  }

  lemma TransferStart(st: Setup, m: Memory, ft: FileTag, base: nat, content: seq<byte>, length: nat, ask: nat -> Answer)
    requires Inv(st, m) && |content| > 0 && length > 0 && forall n :: Answers(st, ask(n))
    ensures st.Valid() && 0 < st.size
    ensures WriteMemory(st, m, ft, base, content, ask) == WriteLoop(st, m, ft, PageOf(st, base), ByteOf(st, base), content, Turns(st, |content|), ask)
    ensures ReadMemory(st, m, ft, base, length, ask) == ReadLoop(st, m, ft, PageOf(st, base), ByteOf(st, base), length, Turns(st, length), ask, [])
  {
  }

  lemma WriteLoopTurn(st: Setup, m: Memory, ft: FileTag, num: nat, off: nat, content: seq<byte>, count: nat, ask: nat -> Answer)
    requires Inv(st, m) && off < st.size && (forall n :: Answers(st, ask(n))) && count > 0
    ensures var n := Min(st.size - off, |content|);
            && Answers(st, ask(num)) && n <= |content| && off + n <= st.size
            && var (m', outcome) := WriteChunk(st, m, Pid(ft, num), off, content[..n], ask(num));
               var whole := WriteLoop(st, m, ft, num, off, content, count, ask);
               if outcome.Done? then Inv(st, m') && whole == WriteLoop(st, m', ft, num + 1, 0, content[n..], count - 1, ask)
               else whole == (m', outcome)
  {
    hide Inv;
    hide WriteChunk;
  }

  lemma WriteLoopEnd(st: Setup, m: Memory, ft: FileTag, num: nat, off: nat, content: seq<byte>, ask: nat -> Answer)
    requires Inv(st, m) && off < st.size && (forall n :: Answers(st, ask(n)))
    ensures WriteLoop(st, m, ft, num, off, content, 0, ask) == (m, Done)
  {
  }

  lemma ReadLoopTurn(st: Setup, m: Memory, ft: FileTag, num: nat, off: nat, length: nat, count: nat, ask: nat -> Answer, read: seq<byte>)
    requires Inv(st, m) && off < st.size && (forall n :: Answers(st, ask(n))) && count > 0
    ensures var n := Min(st.size - off, length);
            && Answers(st, ask(num)) && n <= length && off + n <= st.size
            && var (m', chunk, outcome) := ReadChunk(st, m, Pid(ft, num), off, n, ask(num));
               var whole := ReadLoop(st, m, ft, num, off, length, count, ask, read);
               if outcome.Done? then Inv(st, m') && whole == ReadLoop(st, m', ft, num + 1, 0, length - n, count - 1, ask, read + chunk)
               else whole == (m', read, outcome)
  {
    hide Inv;
    hide ReadChunk;
  }

  lemma ReadLoopEnd(st: Setup, m: Memory, ft: FileTag, num: nat, off: nat, length: nat, ask: nat -> Answer, read: seq<byte>)
    requires Inv(st, m) && off < st.size && (forall n :: Answers(st, ask(n)))
    ensures ReadLoop(st, m, ft, num, off, length, 0, ask, read) == (m, read, Done)
  {
  }

  /** Every transfer that does not run into a freed table keeps the frame table, complete or not. */
  lemma {:induction false} WriteLoopInv(st: Setup, m: Memory, ft: FileTag, num: nat, off: nat, content: seq<byte>, count: nat, ask: nat -> Answer)
    requires Inv(st, m) && off < st.size && forall n :: Answers(st, ask(n))
    ensures var (r, outcome) := WriteLoop(st, m, ft, num, off, content, count, ask); !outcome.Dangling? ==> Inv(st, r)
    decreases count
  {
    hide Inv;
    hide WriteChunk;
    if count > 0 {
      var n := Min(st.size - off, |content|);
      var (m', outcome) := WriteChunk(st, m, Pid(ft, num), off, content[..n], ask(num));
      if outcome.Done? {
        WriteLoopInv(st, m', ft, num + 1, 0, content[n..], count - 1, ask);
      }
    }
  }

  lemma {:induction false} ReadLoopInv(st: Setup, m: Memory, ft: FileTag, num: nat, off: nat, length: nat, count: nat, ask: nat -> Answer, read: seq<byte>)
    requires Inv(st, m) && off < st.size && forall n :: Answers(st, ask(n))
    ensures var (r, _, outcome) := ReadLoop(st, m, ft, num, off, length, count, ask, read); !outcome.Dangling? ==> Inv(st, r)
    decreases count
  {
    hide Inv;
    hide ReadChunk;
    if count > 0 {
      var n := Min(st.size - off, length);
      var (m', chunk, outcome) := ReadChunk(st, m, Pid(ft, num), off, n, ask(num));
      if outcome.Done? {
        ReadLoopInv(st, m', ft, num + 1, 0, length - n, count - 1, ask, read + chunk);
      }
    }
  }

  // --------------------------------------------------------------- flat bytes

  /** What is in memory: the contents of every present page. */
  function View(st: Setup, m: Memory): (v: map<Pid, Block>)
    requires Shaped(st, m)
    ensures forall q :: q in v <==> q in m.pages && m.pages[q].present
    ensures forall q :: q in v ==> v[q] == FrameOf(st, m.bytes, m.pages[q].frame) && |v[q]| == st.size
  {
    map q | q in m.pages && m.pages[q].present :: FrameOf(st, m.bytes, m.pages[q].frame)
  }

  /** How far byte `j` of page `k` lies from byte `off` of page `num`, in the flat space of addresses. */
  function Reach(size: nat, num: nat, off: nat, k: nat, j: nat): int {
    (Start(size, k) + j) - (Start(size, num) + off)
  }

  ghost predicate Resident(m: Memory, ft: FileTag, num: nat, count: nat) {
    forall k: nat :: num <= k < num + count ==> Pid(ft, k) in m.pages && m.pages[Pid(ft, k)].present
  }

  /** Bytes that `count` turns from offset `off` move. */
  function Moved(size: nat, off: nat, length: nat, count: nat): (n: nat)
    requires off < size
    ensures n <= length
  {
    if count == 0 then 0
    else
      var first := Min(size - off, length);
      first + Moved(size, 0, length - first, count - 1)
  }

  /** `v'` is `v` with the first `moved` bytes of `content` laid out from byte `off` of page `num` of `ft` on, and nothing else. */
  ghost predicate Spread(size: nat, v: map<Pid, Block>, v': map<Pid, Block>, ft: FileTag, num: nat, off: nat, content: seq<byte>, moved: nat) {
    && v'.Keys == v.Keys && moved <= |content|
    && forall q :: q in v ==>
         && |v[q]| == |v'[q]| == size
         && forall j: nat :: j < size ==>
              var at := Reach(size, num, off, q.num, j);
              v'[q][j] == if q.owner == ft && 0 <= at < moved then content[at] else v[q][j]
  }

  lemma ReachFacts(size: nat, num: nat, off: nat, k: nat, j: nat)
    requires off < size && j < size
    ensures k == num ==> Reach(size, num, off, k, j) == j - off
    ensures k < num ==> Reach(size, num, off, k, j) < 0
    ensures k > num ==> Reach(size, num, off, k, j) >= size - off
    ensures Reach(size, num, off, k, j) == Reach(size, num + 1, 0, k, j) + size - off
  {
    if k < num { StartGrows(size, k, num); }
    if k > num { StartGrows(size, num, k); }
  }

  lemma SpreadOnAt(size: nat, v: map<Pid, Block>, v1: map<Pid, Block>, v2: map<Pid, Block>, p: Pid, off: nat, content: seq<byte>, n: nat, more: nat,
                   q: Pid, j: nat)
    requires off < size && p in v && p in v1 && |v[p]| == size && q in v && j < size
    requires n <= size - off && n <= |content| && (n < size - off ==> n == |content|)
    requires v1 == v[p := v[p][..off] + content[..n] + v[p][off + n..]]
    requires Spread(size, v1, v2, p.owner, p.num + 1, 0, content[n..], more)
    ensures q in v2 && |v2[q]| == size
    ensures var at := Reach(size, p.num, off, q.num, j);
            v2[q][j] == if q.owner == p.owner && 0 <= at < n + more then content[at] else v[q][j]
  {
    ReachFacts(size, p.num, off, q.num, j);
    var at := Reach(size, p.num + 1, 0, q.num, j);
    hide Reach;
    assert v2[q][j] == if q.owner == p.owner && 0 <= at < more then content[n..][at] else v1[q][j];
    hide Spread;
    if q == p {
      PokeAt(v[p], off, content[..n], j);
    } else if q.owner == p.owner {
      assert q.num != p.num by { assert q == Pid(q.owner, q.num) && p == Pid(p.owner, p.num); }
    }
  }

  /** A chunk laid out in one page, then the rest from the next page on. */
  lemma SpreadOn(size: nat, v: map<Pid, Block>, v1: map<Pid, Block>, v2: map<Pid, Block>, p: Pid, off: nat, content: seq<byte>, count: nat)
    requires off < size && count > 0 && p in v && p in v1 && |v[p]| == size
    requires var n := Min(size - off, |content|);
             && v1 == v[p := v[p][..off] + content[..n] + v[p][off + n..]]
             && Spread(size, v1, v2, p.owner, p.num + 1, 0, content[n..], Moved(size, 0, |content| - n, count - 1))
    ensures Spread(size, v, v2, p.owner, p.num, off, content, Moved(size, off, |content|, count))
  {
    var n := Min(size - off, |content|);
    var more := Moved(size, 0, |content| - n, count - 1);
    assert n + more == Moved(size, off, |content|, count);
    assert v2.Keys == v.Keys;
    assert forall q :: q in v ==> |v[q]| == size;
    forall q, j: nat | q in v && j < size
      ensures var at := Reach(size, p.num, off, q.num, j);
              |v2[q]| == size && v2[q][j] == if q.owner == p.owner && 0 <= at < n + more then content[at] else v[q][j]
    {
      SpreadOnAt(size, v, v1, v2, p, off, content, n, more, q, j);
    }
    hide Moved, Reach;
  }

  // ------------------------------------------------------------ resident pages

  lemma SliceOfSlice(s: seq<byte>, a: nat, b: nat, c: nat, d: nat)
    requires a <= b <= |s| && c <= d <= b - a
    ensures s[a..b][c..d] == s[a + c..a + d]
  {
    forall i | 0 <= i < d - c ensures s[a..b][c..d][i] == s[a + c..a + d][i] {
      assert s[a..b][c + i] == s[a + c + i];
    }
  }

  lemma PokeAt(bytes: seq<byte>, at: nat, data: seq<byte>, i: nat)
    requires at + |data| <= |bytes| && i < |bytes|
    ensures (bytes[..at] + data + bytes[at + |data|..])[i] == if at <= i < at + |data| then data[i - at] else bytes[i]
  {
  }

  lemma PokeFrames(st: Setup, bytes: seq<byte>, f: nat, off: nat, data: seq<byte>, g: nat)
    requires |bytes| == Start(st.size, st.frames) && f < st.frames && g < st.frames && off + |data| <= st.size
    ensures var r := Poke(st, bytes, f, off, data); var before := FrameOf(st, bytes, g);
            FrameOf(st, r, g) == if g == f then before[..off] + data + before[off + |data|..] else before
  {
    FrameBounds(f, st.frames, st.size);
    FrameBounds(g, st.frames, st.size);
    if f < g { StartGrows(st.size, f, g); }
    if g < f { StartGrows(st.size, g, f); }
    var r, before := Poke(st, bytes, f, off, data), FrameOf(st, bytes, g);
    var after := if g == f then before[..off] + data + before[off + |data|..] else before;
    forall j | 0 <= j < st.size ensures FrameOf(st, r, g)[j] == after[j] {
      PokeAt(bytes, Start(st.size, f) + off, data, Start(st.size, g) + j);
      if g == f { PokeAt(before, off, data, j); }
    }
  }

  /** Pages in memory hold distinct frames. */
  lemma FramesDiffer(st: Setup, m: Memory, p: Pid, q: Pid)
    requires Inv(st, m) && p in m.pages && q in m.pages && m.pages[p].present && m.pages[q].present && p != q
    ensures m.pages[p].frame != m.pages[q].frame
  {
    InvParts(st, m);
    LoadedKnown(st, m);
    hide Inv, Shaped;
    assert p in m.loaded && q in m.loaded;
    DistinctFrames(m.pages, m.loaded, p, q);
  }

  lemma LoadedKnown(st: Setup, m: Memory)
    requires Inv(st, m)
    ensures (forall k :: 0 <= k < |m.loaded| ==> m.loaded[k] in m.pages) && Distinct(FrameList(m.pages, m.loaded))
  {
  }

  lemma DistinctFrames(pages: map<Pid, Page>, loaded: seq<Pid>, p: Pid, q: Pid)
    requires (forall k :: 0 <= k < |loaded| ==> loaded[k] in pages) && Distinct(FrameList(pages, loaded))
    requires p in loaded && q in loaded && p != q
    ensures pages[p].frame != pages[q].frame
  {
    var i :| 0 <= i < |loaded| && loaded[i] == p;
    var j :| 0 <= j < |loaded| && loaded[j] == q;
    var fr := FrameList(pages, loaded);
    assert fr[i] == pages[p].frame && fr[j] == pages[q].frame;
  }

  /** What the WRITE loop does to a resident page. */
  function Written(st: Setup, m: Memory, p: Pid, off: nat, data: seq<byte>): Memory
    requires Shaped(st, m) && p in m.pages && off + |data| <= st.size
  {
    Flagged(m, p, true).(bytes := Poke(st, m.bytes, m.pages[p].frame, off, data))
  }

  /** A resident page after an access, its flag set. */
  function Flagged(m: Memory, p: Pid, write: bool): Memory
    requires p in m.pages
  {
    m.(pages := m.pages[p := m.pages[p].(modified := write)])
  }

  lemma PokeView(st: Setup, m: Memory, r: Memory, p: Pid, off: nat, data: seq<byte>)
    requires Shaped(st, m) && Shaped(st, r) && p in m.pages && m.pages[p].present && off + |data| <= st.size
    requires r.pages.Keys == m.pages.Keys
    requires forall q :: q in m.pages ==> r.pages[q].present == m.pages[q].present && r.pages[q].frame == m.pages[q].frame
    requires r.bytes == Poke(st, m.bytes, m.pages[p].frame, off, data)
    requires forall q :: q in m.pages && m.pages[q].present && q != p ==> m.pages[q].frame != m.pages[p].frame
    ensures var was := View(st, m)[p];
            View(st, r) == View(st, m)[p := was[..off] + data + was[off + |data|..]]
  {
    var v, v' := View(st, m), View(st, r);
    hide Poke, FrameOf;
    assert v'.Keys == v.Keys;
    forall q | q in v ensures v'[q] == if q == p then v[p][..off] + data + v[p][off + |data|..] else v[q] {
      PokeFrames(st, m.bytes, m.pages[p].frame, off, data, m.pages[q].frame);
    }
    hide View, Shaped;
  }

  /** One turn on a resident page changes the bytes it copies and no other byte in memory. */
  lemma WriteTurn(st: Setup, m: Memory, p: Pid, off: nat, data: seq<byte>)
    requires Inv(st, m) && p in m.pages && m.pages[p].present && off + |data| <= st.size
    ensures var r := Written(st, m, p, off, data); var was := View(st, m)[p];
            && Inv(st, r)
            && View(st, r) == View(st, m)[p := was[..off] + data + was[off + |data|..]]
  {
    HitInv(st, m, p, true);
    BytesInv(st, Flagged(m, p, true), Poke(st, m.bytes, m.pages[p].frame, off, data));
    forall q | q in m.pages && m.pages[q].present && q != p ensures m.pages[q].frame != m.pages[p].frame {
      FramesDiffer(st, m, p, q);
    }
    PokeView(st, m, Written(st, m, p, off, data), p, off, data);
  }

  /** On a page in memory the access goes straight through. */
  lemma TouchHit(st: Setup, m: Memory, p: Pid, write: bool, answer: Answer)
    requires Inv(st, m) && Answers(st, answer) && p in m.pages && m.pages[p].present
    ensures Touch(st, m, p, write, answer) == (Flagged(m, p, write), Done)
  {
  }

  lemma WriteHit(st: Setup, m: Memory, p: Pid, off: nat, data: seq<byte>, answer: Answer)
    requires Inv(st, m) && Answers(st, answer) && p in m.pages && m.pages[p].present && off + |data| <= st.size
    ensures Shaped(st, m) && WriteChunk(st, m, p, off, data, answer) == (Written(st, m, p, off, data), Done)
  {
    TouchHit(st, m, p, true, answer);
  }

  lemma ReadHit(st: Setup, m: Memory, p: Pid, off: nat, n: nat, answer: Answer)
    requires Inv(st, m) && Answers(st, answer) && p in m.pages && m.pages[p].present && off + n <= st.size
    ensures Shaped(st, m) && p in View(st, m)
    ensures ReadChunk(st, m, p, off, n, answer) == (Flagged(m, p, false), View(st, m)[p][off..off + n], Done)
  {
    TouchHit(st, m, p, false, answer);
  }

  /** The WRITE loop runs to the end and lays its content out in the view, nothing else. */
  ghost predicate LaidOut(st: Setup, m: Memory, ft: FileTag, num: nat, off: nat, content: seq<byte>, count: nat, ask: nat -> Answer)
    requires Inv(st, m) && off < st.size && forall n :: Answers(st, ask(n))
  {
    var (r, outcome) := WriteLoop(st, m, ft, num, off, content, count, ask);
    && outcome == Done && Shaped(st, r)
    && Spread(st.size, View(st, m), View(st, r), ft, num, off, content, Moved(st.size, off, |content|, count))
  }

  /** The page the loop is at, and what is left after it. */
  lemma WriteNext(st: Setup, m: Memory, ft: FileTag, num: nat, off: nat, content: seq<byte>, count: nat)
    requires Inv(st, m) && off < st.size && count > 0 && Resident(m, ft, num, count)
    ensures var p := Pid(ft, num); var n := Min(st.size - off, |content|);
            && Shaped(st, m) && p in m.pages && m.pages[p].present
            && n <= |content| && off + |content[..n]| <= st.size && 0 < st.size
            && Inv(st, Written(st, m, p, off, content[..n]))
            && Resident(Written(st, m, p, off, content[..n]), ft, num + 1, count - 1)
  {
    var p := Pid(ft, num);
    assert p in m.pages && m.pages[p].present;
    WriteTurn(st, m, p, off, content[..Min(st.size - off, |content|)]);
    StillResident(st, m, p, off, content[..Min(st.size - off, |content|)], count);
  }

  lemma LaidOutMeans(st: Setup, m: Memory, ft: FileTag, num: nat, off: nat, content: seq<byte>, count: nat, ask: nat -> Answer) returns (r: Memory)
    requires Inv(st, m) && off < st.size && forall n :: Answers(st, ask(n))
    requires LaidOut(st, m, ft, num, off, content, count, ask)
    ensures WriteLoop(st, m, ft, num, off, content, count, ask) == (r, Done) && Shaped(st, m) && Shaped(st, r)
    ensures Spread(st.size, View(st, m), View(st, r), ft, num, off, content, Moved(st.size, off, |content|, count))
  {
    r := WriteLoop(st, m, ft, num, off, content, count, ask).0;
  }

  lemma LaidOutIf(st: Setup, m: Memory, ft: FileTag, num: nat, off: nat, content: seq<byte>, count: nat, ask: nat -> Answer, r: Memory)
    requires Inv(st, m) && off < st.size && forall n :: Answers(st, ask(n))
    requires WriteLoop(st, m, ft, num, off, content, count, ask) == (r, Done) && Shaped(st, m) && Shaped(st, r)
    requires Spread(st.size, View(st, m), View(st, r), ft, num, off, content, Moved(st.size, off, |content|, count))
    ensures LaidOut(st, m, ft, num, off, content, count, ask)
  {
  }

  lemma WriteUnfold(st: Setup, m: Memory, ft: FileTag, num: nat, off: nat, content: seq<byte>, count: nat, ask: nat -> Answer, next: Memory)
    requires Inv(st, m) && off < st.size && (forall n :: Answers(st, ask(n))) && count > 0
    requires Shaped(st, m) && Pid(ft, num) in m.pages && m.pages[Pid(ft, num)].present && Inv(st, next)
    requires var n := Min(st.size - off, |content|);
             n <= |content| && off + |content[..n]| <= st.size && next == Written(st, m, Pid(ft, num), off, content[..n])
    ensures WriteLoop(st, m, ft, num, off, content, count, ask)
            == WriteLoop(st, next, ft, num + 1, 0, content[Min(st.size - off, |content|)..], count - 1, ask)
  {
    hide Inv;
    hide Written;
    hide WriteChunk;
    WriteHit(st, m, Pid(ft, num), off, content[..Min(st.size - off, |content|)], ask(num));
  }

  /** One turn, and what the turns after it lay out. */
  lemma SpreadStep(st: Setup, m: Memory, next: Memory, r: Memory, p: Pid, off: nat, content: seq<byte>, count: nat)
    requires Inv(st, m) && Shaped(st, m) && p in m.pages && m.pages[p].present && off < st.size && count > 0
    requires Shaped(st, next) && Shaped(st, r)
    requires var n := Min(st.size - off, |content|);
             n <= |content| && off + |content[..n]| <= st.size && next == Written(st, m, p, off, content[..n])
             && Spread(st.size, View(st, next), View(st, r), p.owner, p.num + 1, 0, content[n..], Moved(st.size, 0, |content[n..]|, count - 1))
    ensures Spread(st.size, View(st, m), View(st, r), p.owner, p.num, off, content, Moved(st.size, off, |content|, count))
  {
    hide *;
    WriteTurn(st, m, p, off, content[..Min(st.size - off, |content|)]);
    ResidentStep(st, m, next, r, p, off, content, count);
  }

  lemma LaidOutStep(st: Setup, m: Memory, ft: FileTag, num: nat, off: nat, content: seq<byte>, count: nat, ask: nat -> Answer, next: Memory)
    requires Inv(st, m) && off < st.size && forall n :: Answers(st, ask(n))
    requires count > 0 && Resident(m, ft, num, count) && Inv(st, next)
    requires Shaped(st, m) && Pid(ft, num) in m.pages
    requires next == Written(st, m, Pid(ft, num), off, content[..Min(st.size - off, |content|)])
    requires LaidOut(st, next, ft, num + 1, 0, content[Min(st.size - off, |content|)..], count - 1, ask)
    ensures LaidOut(st, m, ft, num, off, content, count, ask)
  {
    hide *;
    var p := Pid(ft, num);
    var n := Min(st.size - off, |content|);
    WriteNext(st, m, ft, num, off, content, count);
    WriteUnfold(st, m, ft, num, off, content, count, ask, next);
    var r := LaidOutMeans(st, next, ft, num + 1, 0, content[n..], count - 1, ask);
    SpreadStep(st, m, next, r, p, off, content, count);
    LaidOutIf(st, m, ft, num, off, content, count, ask, r);
  }

  lemma {:induction false} ResidentWrite(st: Setup, m: Memory, ft: FileTag, num: nat, off: nat, content: seq<byte>, count: nat, ask: nat -> Answer)
    requires Inv(st, m) && off < st.size && forall n :: Answers(st, ask(n))
    requires Resident(m, ft, num, count)
    ensures LaidOut(st, m, ft, num, off, content, count, ask)
    decreases count
  {
    hide *;
    if count == 0 {
      LaidOutNothing(st, m, ft, num, off, content, ask);
    } else {
      WriteNext(st, m, ft, num, off, content, count);
      var n := Min(st.size - off, |content|);
      var next := Written(st, m, Pid(ft, num), off, content[..n]);
      ResidentWrite(st, next, ft, num + 1, 0, content[n..], count - 1, ask);
      LaidOutStep(st, m, ft, num, off, content, count, ask, next);
    }
  }

  lemma LaidOutNothing(st: Setup, m: Memory, ft: FileTag, num: nat, off: nat, content: seq<byte>, ask: nat -> Answer)
    requires Inv(st, m) && off < st.size && forall n :: Answers(st, ask(n))
    ensures LaidOut(st, m, ft, num, off, content, 0, ask)
  {
    SpreadNothing(st.size, View(st, m), ft, num, off, content);
  }

  lemma SpreadNothing(size: nat, v: map<Pid, Block>, ft: FileTag, num: nat, off: nat, content: seq<byte>)
    requires forall q :: q in v ==> |v[q]| == size
    ensures Spread(size, v, v, ft, num, off, content, 0)
  {
  }

  lemma StillResident(st: Setup, m: Memory, p: Pid, off: nat, data: seq<byte>, count: nat)
    requires Shaped(st, m) && p in m.pages && off + |data| <= st.size && count > 0
    requires Resident(m, p.owner, p.num, count)
    ensures Resident(Written(st, m, p, off, data), p.owner, p.num + 1, count - 1)
  {
  }

  lemma ResidentStep(st: Setup, m: Memory, next: Memory, r: Memory, p: Pid, off: nat, content: seq<byte>, count: nat)
    requires Shaped(st, m) && p in m.pages && m.pages[p].present && off < st.size && count > 0
    requires Shaped(st, next) && Shaped(st, r)
    requires var n := Min(st.size - off, |content|); var was := View(st, m)[p];
             View(st, next) == View(st, m)[p := was[..off] + content[..n] + was[off + n..]]
    requires var n := Min(st.size - off, |content|);
             Spread(st.size, View(st, next), View(st, r), p.owner, p.num + 1, 0, content[n..], Moved(st.size, 0, |content| - n, count - 1))
    ensures Spread(st.size, View(st, m), View(st, r), p.owner, p.num, off, content, Moved(st.size, off, |content|, count))
  {
    SpreadOn(st.size, View(st, m), View(st, next), View(st, r), p, off, content, count);
  }

  // --------------------------------------------------------------------- READ

  /** `out` is the `moved` bytes that lie from byte `off` of page `num` of `ft` on. */
  ghost predicate Gathered(size: nat, v: map<Pid, Block>, ft: FileTag, num: nat, off: nat, out: seq<byte>, moved: nat) {
    && |out| == moved
    && forall q :: q in v && q.owner == ft ==>
         && |v[q]| == size
         && forall j: nat :: j < size ==>
              var at := Reach(size, num, off, q.num, j);
              0 <= at < moved ==> out[at] == v[q][j]
  }

  lemma GatherOn(size: nat, v: map<Pid, Block>, ft: FileTag, num: nat, off: nat, n: nat, length: nat, count: nat, chunk: seq<byte>, rest: seq<byte>)
    requires off < size && count > 0 && Pid(ft, num) in v && forall q :: q in v ==> |v[q]| == size
    requires n == Min(size - off, length) && n <= length && chunk == v[Pid(ft, num)][off..off + n]
    requires Gathered(size, v, ft, num + 1, 0, rest, Moved(size, 0, length - n, count - 1))
    ensures Gathered(size, v, ft, num, off, chunk + rest, Moved(size, off, length, count))
  {
    var out := chunk + rest;
    forall q, j: nat | q in v && q.owner == ft && j < size
      ensures var at := Reach(size, num, off, q.num, j);
              0 <= at < |out| ==> out[at] == v[q][j]
    {
      ReachFacts(size, num, off, q.num, j);
      assert q == Pid(q.owner, q.num);
    }
  }

  /** A READ hit clears the page's modified flag and touches no byte. */
  lemma ReadTurn(st: Setup, m: Memory, p: Pid)
    requires Inv(st, m) && p in m.pages && m.pages[p].present
    ensures Inv(st, Flagged(m, p, false)) && View(st, Flagged(m, p, false)) == View(st, m)
  {
    HitInv(st, m, p, false);
    FlaggedView(st, m, Flagged(m, p, false));
  }

  lemma FlaggedView(st: Setup, m: Memory, r: Memory)
    requires Shaped(st, m) && Shaped(st, r) && r.bytes == m.bytes && r.pages.Keys == m.pages.Keys
    requires forall q :: q in m.pages ==> r.pages[q].present == m.pages[q].present && r.pages[q].frame == m.pages[q].frame
    ensures View(st, r) == View(st, m)
  {
  }

  /** The READ loop runs to the end, leaves the view as it is and returns the bytes it passes. */
  ghost predicate ReadOut(st: Setup, m: Memory, ft: FileTag, num: nat, off: nat, length: nat, count: nat, ask: nat -> Answer, read: seq<byte>)
    requires Inv(st, m) && off < st.size && forall n :: Answers(st, ask(n))
  {
    var (r, out, outcome) := ReadLoop(st, m, ft, num, off, length, count, ask, read);
    && outcome == Done && Shaped(st, r) && View(st, r) == View(st, m)
    && read <= out && Gathered(st.size, View(st, m), ft, num, off, out[|read|..], Moved(st.size, off, length, count))
  }

  lemma ReadOutMeans(st: Setup, m: Memory, ft: FileTag, num: nat, off: nat, length: nat, count: nat, ask: nat -> Answer, read: seq<byte>)
    returns (r: Memory, out: seq<byte>)
    requires Inv(st, m) && off < st.size && forall n :: Answers(st, ask(n))
    requires ReadOut(st, m, ft, num, off, length, count, ask, read)
    ensures ReadLoop(st, m, ft, num, off, length, count, ask, read) == (r, read + out, Done) && Shaped(st, m) && Shaped(st, r)
    ensures View(st, r) == View(st, m)
    ensures Gathered(st.size, View(st, m), ft, num, off, out, Moved(st.size, off, length, count))
  {
    hide Inv;
    hide ReadLoop;
    hide View;
    hide Gathered;
    hide Moved;
    InvShaped(st, m);
    r := ReadLoop(st, m, ft, num, off, length, count, ask, read).0;
    var all := ReadLoop(st, m, ft, num, off, length, count, ask, read).1;
    out := all[|read|..];
    assert all == read + out;
  }

  lemma ReadOutIf(st: Setup, m: Memory, ft: FileTag, num: nat, off: nat, length: nat, count: nat, ask: nat -> Answer, read: seq<byte>, r: Memory, out: seq<byte>)
    requires Inv(st, m) && off < st.size && forall n :: Answers(st, ask(n))
    requires ReadLoop(st, m, ft, num, off, length, count, ask, read) == (r, read + out, Done) && Shaped(st, m) && Shaped(st, r)
    requires View(st, r) == View(st, m)
    requires Gathered(st.size, View(st, m), ft, num, off, out, Moved(st.size, off, length, count))
    ensures ReadOut(st, m, ft, num, off, length, count, ask, read)
  {
    assert (read + out)[|read|..] == out;
  }

  /** The page the loop is at, and what is left after it. */
  lemma ReadNext(st: Setup, m: Memory, ft: FileTag, num: nat, off: nat, length: nat, count: nat)
    requires Inv(st, m) && off < st.size && count > 0 && Resident(m, ft, num, count)
    ensures var p := Pid(ft, num); var next := Flagged(m, p, false); var n := Min(st.size - off, length);
            && Shaped(st, m) && p in m.pages && m.pages[p].present && p in View(st, m)
            && n <= length && off + n <= st.size && 0 < st.size
            && Inv(st, next) && View(st, next) == View(st, m)
            && Resident(next, ft, num + 1, count - 1)
  {
    var p := Pid(ft, num);
    hide *;
    FirstResident(st, m, p, count);
    ResidentOn(m, p, count);
    ReadTurn(st, m, p);
    MinFits(st.size, off, length);
  }

  lemma FirstResident(st: Setup, m: Memory, p: Pid, count: nat)
    requires Inv(st, m) && count > 0 && Resident(m, p.owner, p.num, count)
    ensures Shaped(st, m) && p in m.pages && m.pages[p].present && p in View(st, m)
  {
    assert p == Pid(p.owner, p.num);
  }

  lemma ResidentOn(m: Memory, p: Pid, count: nat)
    requires count > 0 && p in m.pages && Resident(m, p.owner, p.num, count)
    ensures Resident(Flagged(m, p, false), p.owner, p.num + 1, count - 1)
  {
  }

  lemma MinFits(size: nat, off: nat, length: nat)
    requires off < size
    ensures Min(size - off, length) <= length && off + Min(size - off, length) <= size
  {
  }

  lemma ReadUnfold(st: Setup, m: Memory, ft: FileTag, num: nat, off: nat, n: nat, length: nat, count: nat, ask: nat -> Answer, read: seq<byte>, next: Memory)
    requires Inv(st, m) && off < st.size && (forall k :: Answers(st, ask(k))) && count > 0
    requires Shaped(st, m) && Pid(ft, num) in View(st, m) && Inv(st, next)
    requires n == Min(st.size - off, length) && n <= length && off + n <= st.size
    requires ReadChunk(st, m, Pid(ft, num), off, n, ask(num)) == (next, View(st, m)[Pid(ft, num)][off..off + n], Done)
    ensures ReadLoop(st, m, ft, num, off, length, count, ask, read)
            == ReadLoop(st, next, ft, num + 1, 0, length - n, count - 1, ask, read + View(st, m)[Pid(ft, num)][off..off + n])
  {
    hide Inv;
    hide ReadChunk;
  }

  lemma ReadOutStep(st: Setup, m: Memory, ft: FileTag, num: nat, off: nat, n: nat, length: nat, count: nat, ask: nat -> Answer, read: seq<byte>, chunk: seq<byte>, next: Memory)
    requires Inv(st, m) && off < st.size && forall k :: Answers(st, ask(k))
    requires count > 0 && Resident(m, ft, num, count) && Shaped(st, m) && Pid(ft, num) in View(st, m) && Pid(ft, num) in m.pages
    requires next == Flagged(m, Pid(ft, num), false) && Inv(st, next)
    requires n == Min(st.size - off, length) && n <= length && off + n <= st.size
    requires chunk == View(st, m)[Pid(ft, num)][off..off + n]
    requires ReadOut(st, next, ft, num + 1, 0, length - n, count - 1, ask, read + chunk)
    ensures ReadOut(st, m, ft, num, off, length, count, ask, read)
  {
    hide *;
    ReadNext(st, m, ft, num, off, length, count);
    ReadHit(st, m, Pid(ft, num), off, n, ask(num));
    var r, rest := ReadOutMeans(st, next, ft, num + 1, 0, length - n, count - 1, ask, read + chunk);
    ReadUnfold(st, m, ft, num, off, n, length, count, ask, read, next);
    GatherOn(st.size, View(st, m), ft, num, off, n, length, count, chunk, rest);
    assert (read + chunk) + rest == read + (chunk + rest);
    ReadOutIf(st, m, ft, num, off, length, count, ask, read, r, chunk + rest);
  }

  lemma {:induction false} ResidentRead(st: Setup, m: Memory, ft: FileTag, num: nat, off: nat, length: nat, count: nat, ask: nat -> Answer, read: seq<byte>)
    requires Inv(st, m) && off < st.size && forall n :: Answers(st, ask(n))
    requires Resident(m, ft, num, count)
    ensures ReadOut(st, m, ft, num, off, length, count, ask, read)
    decreases count
  {
    hide *;
    if count == 0 {
      ReadOutNothing(st, m, ft, num, off, length, ask, read);
    } else {
      ReadNext(st, m, ft, num, off, length, count);
      var next := Flagged(m, Pid(ft, num), false);
      var n := Min(st.size - off, length);
      var chunk := View(st, m)[Pid(ft, num)][off..off + n];
      ResidentRead(st, next, ft, num + 1, 0, length - n, count - 1, ask, read + chunk);
      ReadOutStep(st, m, ft, num, off, n, length, count, ask, read, chunk, next);
    }
  }

  lemma ReadOutNothing(st: Setup, m: Memory, ft: FileTag, num: nat, off: nat, length: nat, ask: nat -> Answer, read: seq<byte>)
    requires Inv(st, m) && off < st.size && forall n :: Answers(st, ask(n))
    ensures ReadOut(st, m, ft, num, off, length, 0, ask, read)
  {
    assert read[|read|..] == [];
    GatheredNothing(st.size, View(st, m), ft, num, off);
  }

  lemma GatheredNothing(size: nat, v: map<Pid, Block>, ft: FileTag, num: nat, off: nat)
    requires forall q :: q in v ==> |v[q]| == size
    ensures Gathered(size, v, ft, num, off, [], 0)
  {
  }

  // ------------------------------------------------------- how much is moved

  /** With `count` turns the loops move what fits from `off` to the end of the last page. */
  lemma {:induction false} MovedIs(size: nat, off: nat, length: nat, count: nat)
    requires off < size && count > 0
    ensures Moved(size, off, length, count) == Min(length, Start(size, count) - off)
    decreases count
  {
    assert Start(size, count) == Start(size, count - 1) + size;
    if count > 1 {
      MovedIs(size, 0, length - Min(size - off, length), count - 1);
    }
  }

  lemma TurnsCover(st: Setup, length: nat)
    requires st.Valid() && length > 0
    ensures Turns(st, length) > 0
    ensures Start(st.size, Turns(st, length)) >= length > Start(st.size, Turns(st, length) - 1)
  {
    var t := Turns(st, length);
    assert t * st.size <= length + st.size - 1 < t * st.size + st.size;
    StartIsProduct(st.size, t);
    StartIsProduct(st.size, t - 1);
  }

  /** Bytes a request of `length` bytes at `base` moves: up to the end of as many pages as its length fills, counted from its first page. */
  function Transferred(st: Setup, base: nat, length: nat): nat
    requires st.Valid()
  {
    Moved(st.size, ByteOf(st, base), length, Turns(st, length))
  }

  /** The request is served whole exactly when its offset and length fit in the pages its length alone fills. */
  lemma TransferIsWholeIff(st: Setup, base: nat, length: nat)
    requires st.Valid() && length > 0
    ensures var room := Turns(st, length) * st.size - ByteOf(st, base);
            && Transferred(st, base, length) == Min(length, room)
            && (Transferred(st, base, length) == length <==> ByteOf(st, base) + length <= Turns(st, length) * st.size)
  {
    TurnsCover(st, length);
    StartIsProduct(st.size, Turns(st, length));
    MovedIs(st.size, ByteOf(st, base), length, Turns(st, length));
  }

  /** The flat byte space of a file:tag, where its pages are in memory. */
  ghost predicate Flat(st: Setup, v: map<Pid, Block>, ft: FileTag, address: nat, b: byte)
    requires st.Valid()
  {
    FlatAt(st.size, v, ft, PageOf(st, address), ByteOf(st, address), b)
  }

  /** Byte `j` of page `k` of `ft` is in memory and is `b`. */
  ghost predicate FlatAt(size: nat, v: map<Pid, Block>, ft: FileTag, k: nat, j: nat, b: byte) {
    j < size && Pid(ft, k) in v && |v[Pid(ft, k)]| == size && v[Pid(ft, k)][j] == b
  }

  lemma AddressParts(st: Setup, address: nat)
    requires st.Valid()
    ensures Start(st.size, PageOf(st, address)) + ByteOf(st, address) == address
  {
    StartIsProduct(st.size, PageOf(st, address));
  }

  lemma ReachOfAddress(st: Setup, base: nat, address: nat)
    requires st.Valid()
    ensures Reach(st.size, PageOf(st, base), ByteOf(st, base), PageOf(st, address), ByteOf(st, address)) == address - base
  {
    AddressParts(st, base);
    AddressParts(st, address);
    hide PageOf, ByteOf;
  }

  lemma {:induction false} StartAdds(size: nat, a: nat, b: nat)
    ensures Start(size, a + b) == Start(size, a) + Start(size, b)
    decreases b
  {
    if b > 0 { StartAdds(size, a, b - 1); }
  }

  lemma TransferredIs(st: Setup, base: nat, length: nat)
    requires st.Valid() && length > 0 && Turns(st, length) > 0
    ensures Transferred(st, base, length) <= Start(st.size, Turns(st, length)) - ByteOf(st, base)
  {
    MovedIs(st.size, ByteOf(st, base), length, Turns(st, length));
  }

  lemma InTurns(st: Setup, base: nat, length: nat, address: nat)
    requires st.Valid() && length > 0 && base <= address < base + Transferred(st, base, length)
    ensures PageOf(st, base) <= PageOf(st, address) < PageOf(st, base) + Turns(st, length)
  {
    var num, off, k, j, count := PageOf(st, base), ByteOf(st, base), PageOf(st, address), ByteOf(st, address), Turns(st, length);
    hide *;
    TurnsCover(st, length);
    TransferredIs(st, base, length);
    ReachOfAddress(st, base, address);
    PageInTurns(st.size, num, off, k, j, count);
  }

  /** The pages the turns visit are exactly the pages that hold a transferred byte. */
  lemma VisitedIff(st: Setup, base: nat, length: nat, k: nat)
    requires st.Valid() && length > 0
    ensures PageOf(st, base) <= k < PageOf(st, base) + Turns(st, length) <==>
            exists address: nat :: base <= address < base + Transferred(st, base, length) && PageOf(st, address) == k
  {
    if address: nat :| base <= address < base + Transferred(st, base, length) && PageOf(st, address) == k {
      InTurns(st, base, length, address);
    }
    if PageOf(st, base) <= k < PageOf(st, base) + Turns(st, length) {
      var address := FirstAddress(st, base, length, k);
    }
  }

  /** The first byte of the page, or of the transfer. */
  lemma FirstAddress(st: Setup, base: nat, length: nat, k: nat) returns (address: nat)
    requires st.Valid() && length > 0
    requires PageOf(st, base) <= k < PageOf(st, base) + Turns(st, length)
    ensures base <= address < base + Transferred(st, base, length) && PageOf(st, address) == k
  {
    var num, off, count := PageOf(st, base), ByteOf(st, base), Turns(st, length);
    AddressParts(st, base);
    TurnsCover(st, length);
    MovedIs(st.size, off, length, count);
    PageStart(st, k);
    hide *;
    StartGrows(st.size, 0, count);
    FirstByte(st.size, num, off, length, count, k);
    address := if k == num then base else Start(st.size, k);
  }

  lemma PageStart(st: Setup, k: nat)
    requires st.Valid()
    ensures PageOf(st, Start(st.size, k)) == k
  {
    StartIsProduct(st.size, k);
    ProductOver(k, st.size);
    hide *;
    assert PageOf(st, Start(st.size, k)) == (k * st.size) / st.size by { PageIs(st, k * st.size); }
  }

  lemma PageIs(st: Setup, address: nat)
    requires st.Valid()
    ensures PageOf(st, address) == address / st.size
  {
  }

  lemma ProductOver(k: nat, size: nat)
    requires size > 0
    ensures (k * size) / size == k
  {
    var x := k * size;
    var q := x / size;
    assert q * size <= x < q * size + size;
    Between(q, k, size);
  }

  lemma Between(q: nat, k: nat, size: nat)
    requires q * size <= k * size < q * size + size
    ensures q == k
  {
    if q < k { StartGrows(size, q, k); }
    if k < q { StartGrows(size, k, q); }
    StartIsProduct(size, q);
    StartIsProduct(size, k);
  }

  lemma FirstByte(size: nat, num: nat, off: nat, length: nat, count: nat, k: nat)
    requires off < size && num <= k < num + count && Start(size, count - 1) < length <= Start(size, count)
    ensures Start(size, 0) == 0 && 0 < Start(size, count) - off
    ensures k > num ==> Start(size, num) + off <= Start(size, k) < Start(size, num) + off + Min(length, Start(size, count) - off)
  {
    StartGrows(size, 0, count);
    if k > num {
      StartGrows(size, num, k);
      StartAdds(size, num, k - num);
      if k - num < count - 1 { StartGrows(size, k - num, count - 1); }
      StartGrows(size, count - 1, count);
    }
  }

  lemma PageInTurns(size: nat, num: nat, off: nat, k: nat, j: nat, count: nat)
    requires off < size && j < size && 0 <= Reach(size, num, off, k, j) < Start(size, count) - off
    ensures num <= k < num + count
  {
    ReachFacts(size, num, off, k, j);
    StartAdds(size, num, count);
    if k > num + count { StartGrows(size, num + count, k); }
  }

  /** `v'` is the flat space `v` with the transferred bytes of `content` at base, base+1, ... of `ft`. */
  ghost predicate FlatWrite(st: Setup, v: map<Pid, Block>, v': map<Pid, Block>, ft: FileTag, base: nat, content: seq<byte>)
    requires st.Valid()
  {
    forall t: FileTag, address: nat, b: byte ::
      Flat(st, v', t, address, b) <==>
        if t == ft && base <= address < base + Transferred(st, base, |content|) then b == content[address - base]
        else Flat(st, v, t, address, b)
  }

  lemma FlatSpread(st: Setup, v: map<Pid, Block>, v': map<Pid, Block>, ft: FileTag, base: nat, content: seq<byte>)
    requires st.Valid() && |content| > 0
    requires forall k: nat :: PageOf(st, base) <= k < PageOf(st, base) + Turns(st, |content|) ==> Pid(ft, k) in v
    requires Spread(st.size, v, v', ft, PageOf(st, base), ByteOf(st, base), content, Transferred(st, base, |content|))
    ensures FlatWrite(st, v, v', ft, base, content)
  {
    forall t: FileTag, address: nat, b: byte
      ensures Flat(st, v', t, address, b) <==>
                if t == ft && base <= address < base + Transferred(st, base, |content|)
                then b == content[address - base]
                else Flat(st, v, t, address, b)
    {
      SpreadAt(st, v, v', ft, base, content, t, address, b);
    }
  }

  lemma SpreadAt(st: Setup, v: map<Pid, Block>, v': map<Pid, Block>, ft: FileTag, base: nat, content: seq<byte>, t: FileTag, address: nat, b: byte)
    requires st.Valid() && |content| > 0
    requires forall k: nat :: PageOf(st, base) <= k < PageOf(st, base) + Turns(st, |content|) ==> Pid(ft, k) in v
    requires Spread(st.size, v, v', ft, PageOf(st, base), ByteOf(st, base), content, Transferred(st, base, |content|))
    ensures Transferred(st, base, |content|) <= |content|
    ensures Flat(st, v', t, address, b) <==>
              if t == ft && base <= address < base + Transferred(st, base, |content|)
              then b == content[address - base]
              else Flat(st, v, t, address, b)
  {
    var moved := Transferred(st, base, |content|);
    assert Flat(st, v', t, address, b) == FlatAt(st.size, v', t, PageOf(st, address), ByteOf(st, address), b);
    assert Flat(st, v, t, address, b) == FlatAt(st.size, v, t, PageOf(st, address), ByteOf(st, address), b);
    hide *;
    ReachOfAddress(st, base, address);
    if base <= address < base + moved { InTurns(st, base, |content|, address); }
    SpreadPoint(st.size, v, v', ft, base, PageOf(st, base), ByteOf(st, base), content, moved, t, address, PageOf(st, address), ByteOf(st, address), b);
  }

  lemma SpreadPoint(size: nat, v: map<Pid, Block>, v': map<Pid, Block>, ft: FileTag, base: nat, num: nat, off: nat, content: seq<byte>, moved: nat,
                    t: FileTag, address: nat, k: nat, j: nat, b: byte)
    requires Spread(size, v, v', ft, num, off, content, moved) && j < size
    requires Reach(size, num, off, k, j) == address - base
    requires base <= address < base + moved ==> Pid(ft, k) in v
    ensures moved <= |content|
    ensures FlatAt(size, v', t, k, j, b) <==>
              if t == ft && base <= address < base + moved then b == content[address - base] else FlatAt(size, v, t, k, j, b)
  {
    if Pid(t, k) in v {
      assert |v'[Pid(t, k)]| == size;
    }
  }

  /** WRITE on resident pages: bytes land at base, base+1, ..., and every other resident byte of every tag stays. */
  lemma WriteRefinesFlat(st: Setup, m: Memory, ft: FileTag, base: nat, content: seq<byte>, ask: nat -> Answer)
    returns (r: Memory)
    requires Inv(st, m) && |content| > 0 && forall n :: Answers(st, ask(n))
    requires Resident(m, ft, PageOf(st, base), Turns(st, |content|))
    ensures WriteMemory(st, m, ft, base, content, ask) == (r, Done) && Shaped(st, m) && Shaped(st, r)
    ensures FlatWrite(st, View(st, m), View(st, r), ft, base, content)
  {
    ResidentWrite(st, m, ft, PageOf(st, base), ByteOf(st, base), content, Turns(st, |content|), ask);
    r := LaidOutMeans(st, m, ft, PageOf(st, base), ByteOf(st, base), content, Turns(st, |content|), ask);
    hide Inv;
    hide Spread;
    hide WriteLoop;
    FlatSpread(st, View(st, m), View(st, r), ft, base, content);
  }

  /** READ on resident pages: the bytes at base, base+1, ..., with memory as it was. */
  lemma ReadRefinesFlat(st: Setup, m: Memory, ft: FileTag, base: nat, length: nat, ask: nat -> Answer)
    returns (r: Memory, out: seq<byte>)
    requires Inv(st, m) && length > 0 && forall n :: Answers(st, ask(n))
    requires Resident(m, ft, PageOf(st, base), Turns(st, length))
    ensures ReadMemory(st, m, ft, base, length, ask) == (r, out, Done) && Shaped(st, m) && Shaped(st, r)
    ensures View(st, r) == View(st, m)
    ensures |out| == Transferred(st, base, length)
    ensures forall k :: 0 <= k < |out| ==> Flat(st, View(st, m), ft, base + k, out[k])
  {
    ResidentRead(st, m, ft, PageOf(st, base), ByteOf(st, base), length, Turns(st, length), ask, []);
    r, out := ReadOutMeans(st, m, ft, PageOf(st, base), ByteOf(st, base), length, Turns(st, length), ask, []);
    assert [] + out == out;
    hide Inv;
    hide ReadLoop;
    FlatGathered(st, View(st, m), ft, base, length, out);
  }

  lemma FlatGathered(st: Setup, v: map<Pid, Block>, ft: FileTag, base: nat, length: nat, out: seq<byte>)
    requires st.Valid() && length > 0
    requires forall k: nat :: PageOf(st, base) <= k < PageOf(st, base) + Turns(st, length) ==> Pid(ft, k) in v
    requires Gathered(st.size, v, ft, PageOf(st, base), ByteOf(st, base), out, Transferred(st, base, length))
    ensures forall k :: 0 <= k < |out| ==> Flat(st, v, ft, base + k, out[k])
  {
    forall k | 0 <= k < |out| ensures Flat(st, v, ft, base + k, out[k]) {
      GatheredAt(st, v, ft, base, length, out, base + k);
    }
  }

  lemma GatheredAt(st: Setup, v: map<Pid, Block>, ft: FileTag, base: nat, length: nat, out: seq<byte>, address: nat)
    requires st.Valid() && length > 0
    requires forall k: nat :: PageOf(st, base) <= k < PageOf(st, base) + Turns(st, length) ==> Pid(ft, k) in v
    requires Gathered(st.size, v, ft, PageOf(st, base), ByteOf(st, base), out, Transferred(st, base, length))
    requires base <= address < base + |out|
    ensures Flat(st, v, ft, address, out[address - base])
  {
    ReachOfAddress(st, base, address);
    InTurns(st, base, length, address);
  }
}
