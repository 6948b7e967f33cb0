/** The worker's paged memory as values: page tables, frames, replacement, and the transfers of READ and WRITE. */
module Memory {
  import opened Common
  import opened Clock

  datatype Page = Page(frame: nat, present: bool, used: bool, modified: bool)

  /** Page `num` of the table of `owner`. */
  datatype Pid = Pid(owner: FileTag, num: nat)

  datatype Policy = Lru | ClockM

  datatype Setup = Setup(frames: nat, size: nat, policy: Policy)
  {
    predicate Valid() {
      frames > 0 && size > 0
    }
  }

  /** A WRITE_BLOCK request sent to the storage. */
  datatype BlockWrite = BlockWrite(owner: FileTag, num: nat, data: Block)

  /**
   `lengths` holds the tables that exist and how many pages each has, `pages` the
   pages themselves, `loaded` the global list of pages in memory, `sent` the block
   writes so far. `history` lists the pages in the order they were brought in: it
   only records what happened.
   */
  datatype Memory = Memory(
    lengths: map<FileTag, nat>,
    pages: map<Pid, Page>,
    loaded: seq<Pid>,
    bitmap: seq<bool>,
    bytes: seq<byte>,
    hand: nat,
    sent: seq<BlockWrite>,
    history: seq<Pid>)

  /** The storage's answer to a READ_BLOCK. */
  datatype Answer = Loaded(data: Block) | Refused(code: Code)

  /** `Dangling`: the code went on with a page table it had just freed. */
  datatype Outcome = Done | Failed(code: Code) | Dangling

  /** Where block `k` of a run of blocks of `size` bytes starts: k * size, written so that it unfolds one block at a time. */
  function Start(size: nat, k: nat): nat {
    if k == 0 then 0 else Start(size, k - 1) + size
  }

  lemma {:induction false} StartIsProduct(size: nat, k: nat)
    ensures Start(size, k) == k * size
  {
    if k > 0 {
      StartIsProduct(size, k - 1);
      assert k * size == (k - 1) * size + size;
    }
  }

  lemma {:induction false} StartGrows(size: nat, f: nat, g: nat)
    requires f < g
    ensures Start(size, f) + size <= Start(size, g)
    decreases g
  {
    if f < g - 1 { StartGrows(size, f, g - 1); }
  }

  ghost predicate Shaped(st: Setup, m: Memory) {
    && st.Valid()
    && |m.bitmap| == st.frames
    && |m.bytes| == Start(st.size, st.frames)
    && m.hand < st.frames
    && |m.loaded| <= st.frames
    && (forall p :: p in m.pages <==> p.owner in m.lengths && p.num < m.lengths[p.owner])
    && (forall p :: p in m.pages ==> m.pages[p].frame < st.frames)
    && (forall i :: 0 <= i < |m.loaded| ==> m.loaded[i] in m.pages && m.pages[m.loaded[i]].present)
    && (forall i, j :: 0 <= i < j < |m.loaded| ==> m.loaded[i] != m.loaded[j])
  }

  // ------------------------------------------------------------------ frames

  lemma FrameBounds(f: nat, frames: nat, size: nat)
    requires f < frames
    ensures Start(size, f) + size <= Start(size, frames)
  {
    StartGrows(size, f, frames);
  }

  /** The contents of a frame. */
  function FrameOf(st: Setup, bytes: seq<byte>, f: nat): (b: Block)
    requires |bytes| == Start(st.size, st.frames) && f < st.frames
    ensures |b| == st.size
  {
    FrameBounds(f, st.frames, st.size);
    bytes[Start(st.size, f)..Start(st.size, f) + st.size]
  }

  /** Copies `data` into a frame at `off`. */
  function Poke(st: Setup, bytes: seq<byte>, f: nat, off: nat, data: seq<byte>): (r: seq<byte>)
    requires |bytes| == Start(st.size, st.frames) && f < st.frames && off + |data| <= st.size
    ensures |r| == |bytes|
  {
    FrameBounds(f, st.frames, st.size);
    var at := Start(st.size, f) + off;
    bytes[..at] + data + bytes[at + |data|..]
  }

  // ------------------------------------------------------------- replacement

  function FlagsOf(pages: map<Pid, Page>, loaded: seq<Pid>): (fs: seq<Flags>)
    requires forall i :: 0 <= i < |loaded| ==> loaded[i] in pages
    ensures |fs| == |loaded|
  {
    seq(|loaded|, i requires 0 <= i < |loaded| => Flags(pages[loaded[i]].used, pages[loaded[i]].modified))
  }

  /** The entries the hand passes in `count` moves. */
  function Passed(loaded: seq<Pid>, hand: nat, count: nat): (s: set<Pid>)
    requires hand < |loaded| && count <= |loaded|
  {
    set k | 0 <= k < count :: loaded[At(|loaded|, hand, k)]
  }

  function ClearUsed(pages: map<Pid, Page>, ps: set<Pid>): (r: map<Pid, Page>)
    ensures r.Keys == pages.Keys
    ensures forall p :: p in pages ==> r[p] == if p in ps then pages[p].(used := false) else pages[p]
  {
    map p | p in pages :: if p in ps then pages[p].(used := false) else pages[p]
  }

  function Without<T>(s: seq<T>, i: nat): (r: seq<T>)
    requires i < |s|
    ensures |r| == |s| - 1
  {
    s[..i] + s[i + 1..]
  }

  function Next(st: Setup, i: nat): nat {
    if i + 1 == st.frames then 0 else i + 1
  }

  /** The global list loses entry `i`. */
  function Unlist(st: Setup, m: Memory, i: nat): (r: Memory)
    requires Shaped(st, m) && i < |m.loaded|
    ensures Shaped(st, r) && m.loaded[i] in r.pages && m.loaded[i] !in r.loaded
  {
    m.(loaded := Without(m.loaded, i))
  }

  /** The hand moves over `count` entries, clearing their use bits, and stops at `hand`. */
  function Sweep(st: Setup, m: Memory, count: nat, hand: nat): (r: Memory)
    requires Shaped(st, m) && count <= |m.loaded| && m.hand < |m.loaded| && hand < st.frames
    ensures Shaped(st, r) && r.loaded == m.loaded
  {
    m.(pages := ClearUsed(m.pages, Passed(m.loaded, m.hand, count)), hand := hand)
  }

  /** Takes the victim out of the global list. */
  function PickVictim(st: Setup, m: Memory): (r: (Memory, Pid))
    requires Shaped(st, m) && |m.loaded| == st.frames
    ensures Shaped(st, r.0) && r.1 in r.0.pages && r.1 !in r.0.loaded
  {
    match st.policy
    case Lru => (Unlist(st, m, 0), m.loaded[0])
    case ClockM =>
      var c := Choose(FlagsOf(m.pages, m.loaded), m.hand);
      var i := At(|m.loaded|, m.hand, c.offset);
      (Unlist(st, Sweep(st, m, c.cleared, Next(st, i)), i), m.loaded[i])
  }

  /** The page number the code finds for a frame: the last page of the table that carries it, present or not. */
  function PageWithFrame(m: Memory, ft: FileTag, frame: nat, below: nat): (r: Option<nat>)
    requires forall k: nat :: k < below ==> Pid(ft, k) in m.pages
    ensures r.Some? ==> r.value < below && m.pages[Pid(ft, r.value)].frame == frame
                        && forall k: nat :: r.value < k < below ==> m.pages[Pid(ft, k)].frame != frame
    ensures r.None? ==> forall k: nat :: k < below ==> m.pages[Pid(ft, k)].frame != frame
  {
    if below == 0 then None
    else if m.pages[Pid(ft, below - 1)].frame == frame then Some(below - 1)
    else PageWithFrame(m, ft, frame, below - 1)
  }

  predicate NonePresent(m: Memory, ft: FileTag)
    requires ft in m.lengths && forall k: nat :: k < m.lengths[ft] ==> Pid(ft, k) in m.pages
  {
    forall k :: 0 <= k < m.lengths[ft] ==> !m.pages[Pid(ft, k)].present
  }

  function DropTable(m: Memory, ft: FileTag): Memory {
    m.(lengths := m.lengths - {ft}, pages := map p | p in m.pages && p.owner != ft :: m.pages[p])
  }

  /** The victim leaves its frame; a modified one is written back first, under the page number found for the frame. */
  function Vacate(st: Setup, m: Memory, p: Pid): (r: Memory)
    requires Shaped(st, m) && p in m.pages && p !in m.loaded
    ensures Shaped(st, r)
  {
    var page := m.pages[p];
    var num := PageWithFrame(m, p.owner, page.frame, m.lengths[p.owner]);
    m.(pages := m.pages[p := page.(present := false, modified := false)],
       bitmap := m.bitmap[page.frame := false],
       sent := if page.modified then m.sent + [BlockWrite(p.owner, num.value, FrameOf(st, m.bytes, page.frame))] else m.sent)
  }

  /** Frees a victim: its bit is cleared, a modified page is written back, an emptied table is destroyed. */
  function FreeVictim(st: Setup, m: Memory, p: Pid): (r: Memory)
    requires Shaped(st, m) && p in m.pages && p !in m.loaded
    ensures Shaped(st, r)
  {
    var vacated := Vacate(st, m, p);
    if NonePresent(vacated, p.owner) then DropTable(vacated, p.owner) else vacated
  }

  /** The frame for a page about to be loaded: the first free one, or a victim's. */
  function AssignFrame(st: Setup, m: Memory): (r: (Memory, nat))
    requires Shaped(st, m) && (FindFree(m.bitmap, 0).None? ==> |m.loaded| == st.frames)
    ensures Shaped(st, r.0) && r.1 < st.frames && r.0.hand < st.frames
  {
    match FindFree(m.bitmap, 0)
    case Some(f) => (m, f)
    case None =>
      var (m', p) := PickVictim(st, m);
      (FreeVictim(st, m', p), m'.pages[p].frame)
  }

  // ------------------------------------------------------------- page tables

  function InsertAt<T>(s: seq<T>, i: nat, x: T): (r: seq<T>)
    requires i <= |s|
  {
    s[..i] + [x] + s[i..]
  }

  function EntryWithFrame(m: Memory, frame: nat, i: nat): (r: nat)
    requires i <= |m.loaded| && forall k :: 0 <= k < |m.loaded| ==> m.loaded[k] in m.pages
    ensures i <= r <= |m.loaded|
    ensures r < |m.loaded| ==> m.pages[m.loaded[r]].frame == frame
    ensures forall k :: i <= k < r ==> m.pages[m.loaded[k]].frame != frame
    decreases |m.loaded| - i
  {
    if i == |m.loaded| || m.pages[m.loaded[i]].frame == frame then i
    else EntryWithFrame(m, frame, i + 1)
  }

  /** The global list with a page more: at the end, its frame's old entry gone, or at the position of its frame. */
  function Enlisted(st: Setup, m: Memory, p: Pid): (loaded: seq<Pid>)
    requires Shaped(st, m) && p in m.pages && p !in m.loaded
    requires st.policy == ClockM ==> m.pages[p].frame <= |m.loaded|
    ensures |loaded| <= |m.loaded| + 1
    ensures forall i :: 0 <= i < |loaded| ==> loaded[i] == p || loaded[i] in m.loaded
  {
    match st.policy
    case Lru =>
      var k := EntryWithFrame(m, m.pages[p].frame, 0);
      (if k < |m.loaded| then Without(m.loaded, k) else m.loaded) + [p]
    case ClockM => InsertAt(m.loaded, m.pages[p].frame, p)
  }

  lemma EnlistedOnce(st: Setup, m: Memory, p: Pid)
    requires Shaped(st, m) && p in m.pages && p !in m.loaded
    requires st.policy == ClockM ==> m.pages[p].frame <= |m.loaded|
    ensures var loaded := Enlisted(st, m, p); forall i, j :: 0 <= i < j < |loaded| ==> loaded[i] != loaded[j]
  {
  }

  /** Registers a present page in the bitmap and the global list. */
  function Register(st: Setup, m: Memory, p: Pid): (r: Memory)
    requires Shaped(st, m) && p in m.pages && m.pages[p].present && p !in m.loaded
    requires |m.loaded| < st.frames
    requires st.policy == ClockM ==> m.pages[p].frame <= |m.loaded|
    ensures Shaped(st, r)
  {
    EnlistedOnce(st, m, p);
    m.(bitmap := m.bitmap[m.pages[p].frame := true], loaded := Enlisted(st, m, p), history := m.history + [p])
  }

  /** Absent pages for positions `lo` up to `hi`. */
  function AbsentPages(ft: FileTag, lo: nat, hi: nat): (r: map<Pid, Page>)
    ensures forall p :: p in r <==> p.owner == ft && lo <= p.num < hi
    ensures forall p :: p in r ==> r[p] == Page(0, false, true, false)
    decreases hi
  {
    if hi <= lo then map[] else AbsentPages(ft, lo, hi - 1)[Pid(ft, hi - 1) := Page(0, false, true, false)]
  }

  /** A table that ends at page `num`, the pages up to it being absent. */
  function ExtendTable(m: Memory, ft: FileTag, num: nat, page: Page): (r: Memory) {
    var from := if ft in m.lengths then m.lengths[ft] else 0;
    m.(lengths := m.lengths[ft := num + 1],
       pages := (m.pages + AbsentPages(ft, from, num))[Pid(ft, num) := page])
  }
}
